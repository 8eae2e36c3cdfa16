/** Player progression: folding a finished session into the player record
    (stats, the level gate, weapon unlocks, achievements), and the guards on
    choosing a weapon, a level and the next level. `Advance` states the update
    on values; the `Game` class holds the application state and performs the
    same update step by step, as the completion handler does. */
module App {
  import opened Util
  import opened GameTypes
  import opened GameData
  import opened TrainingResults
  import ShootingRange

  const MarksmanId: string := "marksman"
  const PerfectAccuracyId: string := "perfect_accuracy"
  const SpeedShooterId: string := "speed_shooter"
  const FirstBloodId: string := "first_blood"
  const WeaponMasterId: string := "weapon_master"

  function MinInt(a: int, b: int): int { if a <= b then a else b }
  function MaxInt(a: int, b: int): int { if a >= b then a else b }

  // ---------------------------------------------------------------------------
  // Stats

  /** The running mean stays a percentage. */
  lemma RunningMeanBounds(mean: real, g: real, acc: real)
    requires g >= 0.0
    ensures 0.0 <= mean <= 100.0 && 0.0 <= acc <= 100.0 ==> 0.0 <= (mean * g + acc) / (g + 1.0) <= 100.0
  {
    if 0.0 <= mean <= 100.0 && 0.0 <= acc <= 100.0 {
      RunningMeanInside(mean, g, acc);
    }
  }

  lemma RunningMeanInside(mean: real, g: real, acc: real)
    requires 0.0 <= mean <= 100.0 && 0.0 <= acc <= 100.0 && g >= 0.0
    ensures 0.0 <= (mean * g + acc) / (g + 1.0) <= 100.0
  {
    assert mean * g <= 100.0 * g;
    assert 0.0 <= mean * g;
    var m := (mean * g + acc) / (g + 1.0);
    assert m * (g + 1.0) == mean * g + acc;
    assert mean * g + acc <= 100.0 * (g + 1.0);
  }

  /** The stat fold of one session that used `timeUsed` seconds. */
  function FoldStats(s: PlayerStats, shots: seq<Shot>, score: int, accuracy: real, timeUsed: int): (r: PlayerStats)
    ensures r.totalShots == s.totalShots + |shots|
    ensures r.totalHits == s.totalHits + HitCount(shots)
    ensures r.gamesPlayed == s.gamesPlayed + 1
    ensures r.highestScore >= s.highestScore && r.highestScore >= score
    ensures r.highestScore == s.highestScore || r.highestScore == score
    ensures s.bestTime == 0 ==> r.bestTime == timeUsed
    ensures s.bestTime != 0 ==> r.bestTime <= s.bestTime && r.bestTime <= timeUsed
    ensures r.bestTime == s.bestTime || r.bestTime == timeUsed
    ensures s.totalHits <= s.totalShots ==> r.totalHits <= r.totalShots
    ensures 0.0 <= s.accuracy <= 100.0 && 0.0 <= accuracy <= 100.0 ==> 0.0 <= r.accuracy <= 100.0
  {
    RunningMeanBounds(s.accuracy, s.gamesPlayed as real, accuracy);
    PlayerStats(
      s.totalShots + |shots|,
      s.totalHits + HitCount(shots),
      (s.accuracy * s.gamesPlayed as real + accuracy) / (s.gamesPlayed as real + 1.0),
      if s.bestTime == 0 then timeUsed else MinInt(s.bestTime, timeUsed),
      MaxInt(s.highestScore, score),
      s.gamesPlayed + 1)
  }

  /** The new mean accuracy, times the new number of games, is the old total plus this session's accuracy. */
  lemma FoldStatsMean(s: PlayerStats, shots: seq<Shot>, score: int, accuracy: real, timeUsed: int)
    ensures var r := FoldStats(s, shots, score, accuracy, timeUsed);
      r.accuracy * (s.gamesPlayed as real + 1.0) == s.accuracy * s.gamesPlayed as real + accuracy
  {
    var g := s.gamesPlayed as real;
    var m := (s.accuracy * g + accuracy) / (g + 1.0);
    assert m * (g + 1.0) == s.accuracy * g + accuracy;
  }

  // ---------------------------------------------------------------------------
  // Weapon unlocks

  /** `weapons.filter(w => w.unlockLevel <= level && !unlocked.includes(w.id)).map(w => w.id)`. */
  function NewWeaponIds(catalog: seq<Weapon>, level: int, unlocked: seq<string>): (r: seq<string>)
    ensures forall i :: 0 <= i < |catalog| && catalog[i].unlockLevel <= level && catalog[i].id !in unlocked
              ==> catalog[i].id in r
    ensures forall k :: 0 <= k < |r| ==> r[k] !in unlocked
    ensures forall k :: 0 <= k < |r| ==>
              exists i :: 0 <= i < |catalog| && catalog[i].id == r[k] && catalog[i].unlockLevel <= level
  {
    if |catalog| == 0 then []
    else
      var rest := NewWeaponIds(catalog[1..], level, unlocked);
      assert forall i :: 1 <= i < |catalog| ==> catalog[i] == catalog[1..][i - 1];
      forall k | 0 <= k < |rest|
        ensures exists i :: 0 <= i < |catalog| && catalog[i].id == rest[k] && catalog[i].unlockLevel <= level
      {
        var j :| 0 <= j < |catalog[1..]| && catalog[1..][j].id == rest[k] && catalog[1..][j].unlockLevel <= level;
        assert catalog[j + 1] == catalog[1..][j];
      }
      if catalog[0].unlockLevel <= level && catalog[0].id !in unlocked then [catalog[0].id] + rest
      else rest
  }

  /** With distinct catalog ids, no weapon is unlocked twice in one go. */
  lemma {:induction false} NewWeaponIdsDistinct(catalog: seq<Weapon>, level: int, unlocked: seq<string>)
    requires Distinct(WeaponIds(catalog))
    ensures Distinct(NewWeaponIds(catalog, level, unlocked))
  {
    if |catalog| > 0 {
      var tail := catalog[1..];
      assert WeaponIds(tail) == WeaponIds(catalog)[1..];
      NewWeaponIdsDistinct(tail, level, unlocked);
      var rest := NewWeaponIds(tail, level, unlocked);
      if catalog[0].unlockLevel <= level && catalog[0].id !in unlocked {
        forall k | 0 <= k < |rest|
          ensures rest[k] !in [catalog[0].id]
        {
          var i :| 0 <= i < |tail| && tail[i].id == rest[k] && tail[i].unlockLevel <= level;
          assert WeaponIds(catalog)[i + 1] == rest[k];
        }
        AppendDistinct([catalog[0].id], rest);
      }
    }
  }

  /** Appending new ids keeps a duplicate-free list duplicate-free. */
  lemma AppendDistinct(a: seq<string>, b: seq<string>)
    requires Distinct(a) && Distinct(b)
    requires forall k :: 0 <= k < |b| ==> b[k] !in a
    ensures Distinct(a + b)
  {
    var c := a + b;
    forall i, j | 0 <= i < j < |c|
      ensures c[i] != c[j]
    {
      if j >= |a| && i < |a| {
        assert c[j] == b[j - |a|];
        assert c[i] in a;
      } else if i >= |a| {
        assert c[i] == b[i - |a|] && c[j] == b[j - |a|];
      }
    }
  }

  // ---------------------------------------------------------------------------
  // Achievements

  /** `achievements.find(a => a.id === id)` as an index: the first match. */
  function FindAchievement(achs: seq<Achievement>, id: string): (r: Option<nat>)
    ensures r.Some? ==> r.value < |achs| && achs[r.value].id == id
    ensures r.Some? ==> forall j :: 0 <= j < r.value ==> achs[j].id != id
    ensures r.None? <==> forall j :: 0 <= j < |achs| ==> achs[j].id != id
  {
    if |achs| == 0 then None
    else if achs[0].id == id then Some(0)
    else
      match FindAchievement(achs[1..], id)
      case None => None
      case Some(k) => Some(k + 1)
  }

  /** One achievement check: when `cond` holds and the first achievement
      called `id` is still locked, unlock it and stamp it with `now`. */
  function UnlockIf(achs: seq<Achievement>, id: string, cond: bool, now: nat): (r: seq<Achievement>)
    ensures |r| == |achs|
    ensures forall i :: 0 <= i < |achs| ==>
              r[i] == achs[i] || (cond && achs[i].id == id && JustUnlocked(achs[i], r[i], now))
  {
    if !cond then achs
    else
      match FindAchievement(achs, id)
      case None => achs
      case Some(k) =>
        if achs[k].unlocked then achs
        else achs[k := achs[k].(unlocked := true, unlockedAt := Some(now))]
  }

  /** `b` is the locked achievement `a` unlocked and stamped with `now`. */
  predicate JustUnlocked(a: Achievement, b: Achievement, now: nat)
  {
    !a.unlocked && b == a.(unlocked := true, unlockedAt := Some(now))
  }

  /** The condition of the completion handler's check for the achievement `id`;
      no other id has a check. */
  predicate Earned(id: string, accuracy: real, timeUsed: int, gamesPlayed: nat)
  {
    || (id == MarksmanId && accuracy >= 90.0)
    || (id == PerfectAccuracyId && accuracy == 100.0)
    || (id == SpeedShooterId && timeUsed <= 20)
    || (id == FirstBloodId && gamesPlayed == 1)
  }

  /** `b` is `a` with at most some locked achievements unlocked: same length,
      same catalog data, and an unlocked achievement stays exactly as it was. */
  ghost predicate Evolves(a: seq<Achievement>, b: seq<Achievement>)
  {
    && |a| == |b|
    && (forall i :: 0 <= i < |a| ==> b[i].(unlocked := a[i].unlocked, unlockedAt := a[i].unlockedAt) == a[i])
    && (forall i :: 0 <= i < |a| && a[i].unlocked ==> b[i] == a[i])
  }

  /** A check whose condition is off, whose id is absent, or whose achievement
      is already unlocked has nothing left to do. */
  ghost predicate Settled(achs: seq<Achievement>, id: string, cond: bool)
  {
    !cond || FindAchievement(achs, id).None? || achs[FindAchievement(achs, id).value].unlocked
  }

  lemma UnlockIfEvolves(achs: seq<Achievement>, id: string, cond: bool, now: nat)
    ensures Evolves(achs, UnlockIf(achs, id, cond, now))
    ensures Settled(UnlockIf(achs, id, cond, now), id, cond)
    ensures forall i :: 0 <= i < |achs| && achs[i].id != id ==> UnlockIf(achs, id, cond, now)[i] == achs[i]
  {
    var r := UnlockIf(achs, id, cond, now);
    assert forall i :: 0 <= i < |achs| ==> r[i].id == achs[i].id;
    assert FindAchievement(r, id) == FindAchievement(achs, id);
  }

  lemma EvolvesTransitive(a: seq<Achievement>, b: seq<Achievement>, c: seq<Achievement>)
    requires Evolves(a, b) && Evolves(b, c)
    ensures Evolves(a, c)
  {
    forall i | 0 <= i < |a|
      ensures c[i].(unlocked := a[i].unlocked, unlockedAt := a[i].unlockedAt) == a[i]
    {
      assert c[i].(unlocked := b[i].unlocked, unlockedAt := b[i].unlockedAt) == b[i];
    }
  }

  /** Unlocking elsewhere keeps a settled check settled. */
  lemma SettledStaysSettled(a: seq<Achievement>, b: seq<Achievement>, id: string, cond: bool)
    requires Evolves(a, b) && Settled(a, id, cond)
    ensures Settled(b, id, cond)
  {
    assert forall i :: 0 <= i < |a| ==> b[i].id == a[i].id;
    assert FindAchievement(b, id) == FindAchievement(a, id);
  }

  lemma SettledIsNoop(achs: seq<Achievement>, id: string, cond: bool, now: nat)
    requires Settled(achs, id, cond)
    ensures UnlockIf(achs, id, cond, now) == achs
  {
  }

  /** The four checks of the completion handler, in the handler's order. */
  function CheckAchievements(achs: seq<Achievement>, accuracy: real, timeUsed: int,
                             gamesPlayed: nat, now: nat): (r: seq<Achievement>)
    ensures |r| == |achs|
    ensures forall i :: 0 <= i < |achs| ==> r[i].id == achs[i].id
  {
    var a1 := UnlockIf(achs, MarksmanId, accuracy >= 90.0, now);
    var a2 := UnlockIf(a1, PerfectAccuracyId, accuracy == 100.0, now);
    var a3 := UnlockIf(a2, SpeedShooterId, timeUsed <= 20, now);
    UnlockIf(a3, FirstBloodId, gamesPlayed == 1, now)
  }

  /** What the checks do: only locked achievements change, only those with
      one of the four ids, and each check whose condition holds leaves its
      achievement unlocked. */
  lemma {:induction false} CheckAchievementsEffect(achs: seq<Achievement>, accuracy: real,
                                                   timeUsed: int, gamesPlayed: nat, now: nat)
    ensures var r := CheckAchievements(achs, accuracy, timeUsed, gamesPlayed, now);
      && Evolves(achs, r)
      && (forall i :: 0 <= i < |achs| && achs[i].id !in {MarksmanId, PerfectAccuracyId, SpeedShooterId, FirstBloodId}
            ==> r[i] == achs[i])
      && Settled(r, MarksmanId, accuracy >= 90.0)
      && Settled(r, PerfectAccuracyId, accuracy == 100.0)
      && Settled(r, SpeedShooterId, timeUsed <= 20)
      && Settled(r, FirstBloodId, gamesPlayed == 1)
      && (forall i :: 0 <= i < |achs| && r[i] != achs[i] ==>
            JustUnlocked(achs[i], r[i], now) && Earned(achs[i].id, accuracy, timeUsed, gamesPlayed))
  {
    CheckAchievementsChanges(achs, accuracy, timeUsed, gamesPlayed, now);
    var a1 := UnlockIf(achs, MarksmanId, accuracy >= 90.0, now);
    var a2 := UnlockIf(a1, PerfectAccuracyId, accuracy == 100.0, now);
    var a3 := UnlockIf(a2, SpeedShooterId, timeUsed <= 20, now);
    var a4 := UnlockIf(a3, FirstBloodId, gamesPlayed == 1, now);
    UnlockIfEvolves(achs, MarksmanId, accuracy >= 90.0, now);
    UnlockIfEvolves(a1, PerfectAccuracyId, accuracy == 100.0, now);
    UnlockIfEvolves(a2, SpeedShooterId, timeUsed <= 20, now);
    UnlockIfEvolves(a3, FirstBloodId, gamesPlayed == 1, now);
    EvolvesTransitive(achs, a1, a2);
    EvolvesTransitive(achs, a2, a3);
    EvolvesTransitive(achs, a3, a4);
    EvolvesTransitive(a1, a2, a3);
    EvolvesTransitive(a1, a3, a4);
    EvolvesTransitive(a2, a3, a4);
    SettledStaysSettled(a1, a4, MarksmanId, accuracy >= 90.0);
    SettledStaysSettled(a2, a4, PerfectAccuracyId, accuracy == 100.0);
    SettledStaysSettled(a3, a4, SpeedShooterId, timeUsed <= 20);
  }

  /** An achievement the checks change was locked, has a check whose
      condition held, and is now unlocked and stamped with `now`. */
  lemma CheckAchievementsChanges(achs: seq<Achievement>, accuracy: real,
                                 timeUsed: int, gamesPlayed: nat, now: nat)
    ensures var r := CheckAchievements(achs, accuracy, timeUsed, gamesPlayed, now);
      forall i :: 0 <= i < |achs| && r[i] != achs[i] ==>
        JustUnlocked(achs[i], r[i], now) && Earned(achs[i].id, accuracy, timeUsed, gamesPlayed)
  {
    var a1 := UnlockIf(achs, MarksmanId, accuracy >= 90.0, now);
    var a2 := UnlockIf(a1, PerfectAccuracyId, accuracy == 100.0, now);
    var a3 := UnlockIf(a2, SpeedShooterId, timeUsed <= 20, now);
    var a4 := UnlockIf(a3, FirstBloodId, gamesPlayed == 1, now);
    forall i | 0 <= i < |achs| && a4[i] != achs[i]
      ensures JustUnlocked(achs[i], a4[i], now) && Earned(achs[i].id, accuracy, timeUsed, gamesPlayed)
    {
      // The first check that changes position i unlocks it; the later ones
      // then leave it as it is.
      if a1[i] != achs[i] {
        assert a4[i] == a1[i];
      } else if a2[i] != a1[i] {
        assert a4[i] == a2[i];
      } else if a3[i] != a2[i] {
        assert a4[i] == a3[i];
      }
    }
  }

  /** Running the checks again changes nothing when no condition is newly
      met, whatever the clock says the second time. */
  lemma CheckAchievementsIdempotent(achs: seq<Achievement>, accuracy: real, timeUsed: int,
                                    g1: nat, g2: nat, now1: nat, now2: nat)
    requires g2 == 1 ==> g1 == 1
    ensures var once := CheckAchievements(achs, accuracy, timeUsed, g1, now1);
            CheckAchievements(once, accuracy, timeUsed, g2, now2) == once
  {
    var once := CheckAchievements(achs, accuracy, timeUsed, g1, now1);
    CheckAchievementsEffect(achs, accuracy, timeUsed, g1, now1);
    SettledIsNoop(once, MarksmanId, accuracy >= 90.0, now2);
    SettledIsNoop(once, PerfectAccuracyId, accuracy == 100.0, now2);
    SettledIsNoop(once, SpeedShooterId, timeUsed <= 20, now2);
    assert Settled(once, FirstBloodId, g2 == 1);
    SettledIsNoop(once, FirstBloodId, g2 == 1, now2);
  }

  // ---------------------------------------------------------------------------
  // The completion handler as a function of values

  /** The level gate: the session passed and the level played is the
      player's current frontier. */
  predicate LevelsUp(p: Player, shots: seq<Shot>, level: TrainingLevel)
    ensures LevelsUp(p, shots, level) <==>
      5 * HitCount(shots) >= 3 * level.targetCount && p.level == level.unlockLevel
  {
    IsLevelComplete(HitCount(shots), level.targetCount) && p.level == level.unlockLevel
  }

  /** `handleTrainingComplete` on values. The time used is always the level's
      full time limit. */
  function Advance(p: Player, score: int, accuracy: real, shots: seq<Shot>,
                   level: TrainingLevel, now: nat): (r: Player)
    ensures r.(stats := p.stats, level := p.level, experience := p.experience,
               unlockedWeapons := p.unlockedWeapons, achievements := p.achievements) == p
    ensures |r.achievements| == |p.achievements|
    ensures r.stats.gamesPlayed == p.stats.gamesPlayed + 1
  {
    var timeUsed := level.timeLimit;
    var stats := FoldStats(p.stats, shots, score, accuracy, timeUsed);
    var up := LevelsUp(p, shots, level);
    var newLevel := if up then p.level + 1 else p.level;
    p.(
      stats := stats,
      level := newLevel,
      experience := if up then p.experience + score else p.experience,
      unlockedWeapons :=
        if up then p.unlockedWeapons + NewWeaponIds(Weapons, newLevel, p.unlockedWeapons)
        else p.unlockedWeapons,
      achievements := CheckAchievements(p.achievements, accuracy, timeUsed, stats.gamesPlayed, now))
  }

  /** The level gate: level and experience rise, by one and by the score,
      exactly when the player levels up; otherwise both stay. */
  lemma AdvanceLevelGate(p: Player, score: int, accuracy: real, shots: seq<Shot>,
                         level: TrainingLevel, now: nat)
    ensures var r := Advance(p, score, accuracy, shots, level, now);
      && (r.level == p.level + 1 <==> LevelsUp(p, shots, level))
      && (r.level != p.level + 1 ==> r.level == p.level && r.experience == p.experience
                                      && r.unlockedWeapons == p.unlockedWeapons)
      && (LevelsUp(p, shots, level) ==> r.experience == p.experience + score)
  {
  }

  /** Replaying a level other than the frontier never raises the level, not
      even with every shot a hit. */
  lemma ReplayNeverLevelsUp(p: Player, score: int, accuracy: real, shots: seq<Shot>,
                            level: TrainingLevel, now: nat)
    requires p.level != level.unlockLevel
    ensures Advance(p, score, accuracy, shots, level, now).level == p.level
    ensures Advance(p, score, accuracy, shots, level, now).experience == p.experience
  {
  }

  /** Progress only accumulates: level and experience never fall (the score
      of a session is never negative), the unlocked weapons keep their order
      and only grow, and achievements only unlock. */
  lemma AdvanceMonotone(p: Player, score: int, accuracy: real, shots: seq<Shot>,
                        level: TrainingLevel, now: nat)
    requires score >= 0
    ensures var r := Advance(p, score, accuracy, shots, level, now);
      && p.level <= r.level <= p.level + 1
      && r.experience >= p.experience
      && p.unlockedWeapons <= r.unlockedWeapons
      && Evolves(p.achievements, r.achievements)
  {
    var g := p.stats.gamesPlayed + 1;
    CheckAchievementsEffect(p.achievements, accuracy, level.timeLimit, g, now);
  }

  /** After a level-up every catalog weapon of the new level is unlocked, only
      catalog weapons of that level were added, and no id appears twice. */
  lemma AdvanceUnlocksWeapons(p: Player, score: int, accuracy: real, shots: seq<Shot>,
                              level: TrainingLevel, now: nat)
    requires LevelsUp(p, shots, level)
    requires Distinct(p.unlockedWeapons)
    ensures var r := Advance(p, score, accuracy, shots, level, now);
      && (forall i :: 0 <= i < |Weapons| && Weapons[i].unlockLevel <= r.level ==> Weapons[i].id in r.unlockedWeapons)
      && (forall k :: |p.unlockedWeapons| <= k < |r.unlockedWeapons| ==>
            exists i :: 0 <= i < |Weapons| && Weapons[i].id == r.unlockedWeapons[k] && Weapons[i].unlockLevel <= r.level)
      && Distinct(r.unlockedWeapons)
  {
    WeaponCatalogWellFormed();
    var r := Advance(p, score, accuracy, shots, level, now);
    var added := NewWeaponIds(Weapons, r.level, p.unlockedWeapons);
    assert r.unlockedWeapons == p.unlockedWeapons + added;
    NewWeaponIdsDistinct(Weapons, r.level, p.unlockedWeapons);
    AppendDistinct(p.unlockedWeapons, added);
    forall k | |p.unlockedWeapons| <= k < |r.unlockedWeapons|
      ensures exists i :: 0 <= i < |Weapons| && Weapons[i].id == r.unlockedWeapons[k] && Weapons[i].unlockLevel <= r.level
    {
      assert r.unlockedWeapons[k] == added[k - |p.unlockedWeapons|];
    }
  }

  /** The achievements `Advance` returns are the four checks run on the
      player's achievements with the new game count. */
  lemma AdvanceChecks(p: Player, score: int, accuracy: real, shots: seq<Shot>,
                      level: TrainingLevel, now: nat)
    ensures Advance(p, score, accuracy, shots, level, now).achievements
         == CheckAchievements(p.achievements, accuracy, level.timeLimit, p.stats.gamesPlayed + 1, now)
  {
  }

  /** Achievements after a session: nothing is re-locked or re-stamped,
      Weapon Master is never touched, and every check whose condition held
      has its achievement unlocked. */
  lemma AdvanceAchievements(p: Player, score: int, accuracy: real, shots: seq<Shot>,
                            level: TrainingLevel, now: nat)
    ensures var r := Advance(p, score, accuracy, shots, level, now);
      && Evolves(p.achievements, r.achievements)
      && (forall i :: 0 <= i < |p.achievements| && p.achievements[i].id == WeaponMasterId
            ==> r.achievements[i] == p.achievements[i])
      && Settled(r.achievements, MarksmanId, accuracy >= 90.0)
      && Settled(r.achievements, PerfectAccuracyId, accuracy == 100.0)
      && Settled(r.achievements, SpeedShooterId, level.timeLimit <= 20)
      && Settled(r.achievements, FirstBloodId, p.stats.gamesPlayed == 0)
      && (forall i :: 0 <= i < |p.achievements| && r.achievements[i] != p.achievements[i] ==>
            JustUnlocked(p.achievements[i], r.achievements[i], now) &&
            Earned(p.achievements[i].id, accuracy, level.timeLimit, p.stats.gamesPlayed + 1))
  {
    AdvanceChecks(p, score, accuracy, shots, level, now);
    CheckAchievementsEffect(p.achievements, accuracy, level.timeLimit, p.stats.gamesPlayed + 1, now);
  }

  /** Running the update twice on the same session gives the achievement state
      of running it once. */
  lemma AdvanceAchievementsIdempotent(p: Player, score: int, accuracy: real, shots: seq<Shot>,
                                      level: TrainingLevel, now1: nat, now2: nat)
    ensures var once := Advance(p, score, accuracy, shots, level, now1);
            Advance(once, score, accuracy, shots, level, now2).achievements == once.achievements
  {
    var once := Advance(p, score, accuracy, shots, level, now1);
    CheckAchievementsIdempotent(p.achievements, accuracy, level.timeLimit,
                                p.stats.gamesPlayed + 1, once.stats.gamesPlayed + 1, now1, now2);
  }

  /** No catalog level is short enough for Speed Shooter, so playing one
      leaves that achievement as it was. */
  lemma SpeedShooterNeverFromCatalog(p: Player, score: int, accuracy: real, shots: seq<Shot>,
                                     level: TrainingLevel, now: nat)
    requires level in TrainingLevels
    ensures var r := Advance(p, score, accuracy, shots, level, now);
      forall i :: 0 <= i < |p.achievements| && p.achievements[i].id == SpeedShooterId
        ==> r.achievements[i] == p.achievements[i]
  {
    LevelTimeLimitsAboveTwenty();
    var g := p.stats.gamesPlayed + 1;
    var achs := p.achievements;
    var a1 := UnlockIf(achs, MarksmanId, accuracy >= 90.0, now);
    var a2 := UnlockIf(a1, PerfectAccuracyId, accuracy == 100.0, now);
    var a3 := UnlockIf(a2, SpeedShooterId, level.timeLimit <= 20, now);
    var a4 := UnlockIf(a3, FirstBloodId, g == 1, now);
    UnlockIfEvolves(achs, MarksmanId, accuracy >= 90.0, now);
    UnlockIfEvolves(a1, PerfectAccuracyId, accuracy == 100.0, now);
    UnlockIfEvolves(a3, FirstBloodId, g == 1, now);
    assert a3 == a2;
  }

  /** Session results as the engine emits them keep the lifetime stats sane:
      hits never exceed shots and the running accuracy stays a percentage. */
  lemma AdvanceKeepsStatsSane(p: Player, shots: seq<Shot>, level: TrainingLevel, now: nat)
    requires p.stats.totalHits <= p.stats.totalShots
    requires 0.0 <= p.stats.accuracy <= 100.0
    ensures var r := Advance(p, ShootingRange.TargetPoints * HitCount(shots),
                             ShootingRange.Accuracy(shots), shots, level, now);
      && r.stats.totalHits <= r.stats.totalShots
      && 0.0 <= r.stats.accuracy <= 100.0
      && r.stats.gamesPlayed == p.stats.gamesPlayed + 1
  {
  }

  /** The four checks on a new player's first session at 100 % accuracy on a
      level of 30 seconds. */
  lemma FirstPerfectAchievements(now: nat)
    ensures CheckAchievements(Achievements, 100.0, 30, 1, now) ==
      [Achievements[0].(unlocked := true, unlockedAt := Some(now)),
       Achievements[1],
       Achievements[2].(unlocked := true, unlockedAt := Some(now)),
       Achievements[3].(unlocked := true, unlockedAt := Some(now)),
       Achievements[4]]
  {
    var a1 := UnlockIf(Achievements, MarksmanId, true, now);
    CatalogUnlock(Achievements, MarksmanId, 0, now);
    var a2 := UnlockIf(a1, PerfectAccuracyId, true, now);
    CatalogUnlock(a1, PerfectAccuracyId, 2, now);
    assert UnlockIf(a2, SpeedShooterId, false, now) == a2;
    CatalogUnlock(a2, FirstBloodId, 3, now);
  }

  /** Unlocking by id in a list whose first holder of `id` sits at `k` and is locked. */
  lemma CatalogUnlock(achs: seq<Achievement>, id: string, k: nat, now: nat)
    requires k < |achs| && achs[k].id == id && !achs[k].unlocked
    requires forall j :: 0 <= j < k ==> achs[j].id != id
    ensures UnlockIf(achs, id, true, now) == achs[k := achs[k].(unlocked := true, unlockedAt := Some(now))]
  {
    assert FindAchievement(achs, id) == Some(k);
  }

  /** A first session on Basic Training I with five hits in five shots: the
      player reaches level 2 with 500 experience, Marksman, Perfect Accuracy
      and First Blood unlock at `now`, and no new weapon comes with level 2. */
  lemma FirstPerfectSession(shots: seq<Shot>, now: nat)
    requires |shots| == 5 && forall i :: 0 <= i < 5 ==> shots[i].hit
    ensures var r := Advance(DefaultPlayer, 500, 100.0, shots, TrainingLevels[0], now);
      && r.level == 2 && r.experience == 500
      && r.unlockedWeapons == ["glock17"]
      && r.stats == PlayerStats(5, 5, 100.0, 30, 500, 1)
      && r.achievements == CheckAchievements(Achievements, 100.0, 30, 1, now)
  {
    var p := DefaultPlayer;
    var level := TrainingLevels[0];
    assert HitCount(shots) == 5;
    assert LevelsUp(p, shots, level);
    assert FoldStats(p.stats, shots, 500, 100.0, 30) == PlayerStats(5, 5, 100.0, 30, 500, 1);
    assert NewWeaponIds(Weapons[2..], 2, ["glock17"]) == [];
    assert NewWeaponIds(Weapons[1..], 2, ["glock17"]) == [];
    assert NewWeaponIds(Weapons, 2, p.unlockedWeapons) == [];
  }

  // ---------------------------------------------------------------------------
  // Selection guards

  /** `handleWeaponSelect`: only an unlocked weapon can be chosen. */
  function ChooseWeapon(p: Player, current: Weapon, w: Weapon): (r: Weapon)
    ensures w.id in p.unlockedWeapons ==> r == w
    ensures w.id !in p.unlockedWeapons ==> r == current
    ensures current.id in p.unlockedWeapons ==> r.id in p.unlockedWeapons
  {
    if w.id in p.unlockedWeapons then w else current
  }

  /** `handleLevelSelect`: only a level the player has reached can be chosen. */
  function ChooseLevel(p: Player, current: TrainingLevel, l: TrainingLevel): (r: TrainingLevel)
    ensures p.level >= l.unlockLevel ==> r == l
    ensures p.level < l.unlockLevel ==> r == current
    ensures p.level >= current.unlockLevel ==> p.level >= r.unlockLevel
  {
    if p.level >= l.unlockLevel then l else current
  }

  /** `trainingLevels.findIndex(l => l.id === id)`: -1 when absent. */
  function FindLevelIndex(levels: seq<TrainingLevel>, id: string): (r: int)
    ensures -1 <= r < |levels|
    ensures r >= 0 ==> levels[r].id == id && forall j :: 0 <= j < r ==> levels[j].id != id
    ensures r == -1 <==> forall j :: 0 <= j < |levels| ==> levels[j].id != id
  {
    if |levels| == 0 then -1
    else if levels[0].id == id then 0
    else
      var k := FindLevelIndex(levels[1..], id);
      if k == -1 then -1 else k + 1
  }

  /** The Next Level action: move to the catalog level after the current one
      when it exists and the player has reached it. A level that is not in
      the catalog has index -1, so its successor is the first catalog level. */
  function NextLevelChoice(p: Player, current: TrainingLevel): (r: TrainingLevel)
    ensures p.level >= current.unlockLevel ==> p.level >= r.unlockLevel
  {
    var next := FindLevelIndex(TrainingLevels, current.id) + 1;
    if next < |TrainingLevels| && p.level >= TrainingLevels[next].unlockLevel then TrainingLevels[next]
    else current
  }

  /** From catalog level `i` the action moves to level `i + 1` when there is
      one and the player has reached it, and stays put otherwise. */
  lemma NextLevelFromCatalog(p: Player, i: nat)
    requires i < |TrainingLevels|
    ensures var r := NextLevelChoice(p, TrainingLevels[i]);
      if i + 1 < |TrainingLevels| && p.level >= TrainingLevels[i + 1].unlockLevel
      then r == TrainingLevels[i + 1]
      else r == TrainingLevels[i]
  {
    LevelCatalogWellFormed();
    assert FindLevelIndex(TrainingLevels, TrainingLevels[i].id) == i;
  }

  // ---------------------------------------------------------------------------
  // The application state

  /** What the results screen is shown. */
  datatype LastResults = LastResults(score: int, accuracy: real, shots: seq<Shot>, timeUsed: int)

  class Game {
    var player: Player
    var selectedWeapon: Weapon
    var selectedLevel: TrainingLevel
    var lastResults: Option<LastResults>

    /** The selected weapon is always one the player has unlocked and the
        selected level one the player has reached. */
    ghost predicate Valid()
      reads this
    {
      selectedWeapon.id in player.unlockedWeapons && player.level >= selectedLevel.unlockLevel
    }

    constructor ()
      ensures Valid()
      ensures player == DefaultPlayer && selectedWeapon == Weapons[0]
      ensures selectedLevel == TrainingLevels[0] && lastResults == None
    {
      player := DefaultPlayer;
      selectedWeapon := Weapons[0];
      selectedLevel := TrainingLevels[0];
      lastResults := None;
    }

    /** `handleTrainingComplete`, step by step: fold the stats, pass the level
        gate, unlock weapons, run the four achievement checks, store the
        player and the results. */
    method TrainingComplete(score: int, accuracy: real, shots: seq<Shot>, now: nat)
      requires Valid()
      modifies this
      ensures Valid()
      ensures player == Advance(old(player), score, accuracy, shots, selectedLevel, now)
      ensures lastResults == Some(LastResults(score, accuracy, shots, selectedLevel.timeLimit))
      ensures selectedWeapon == old(selectedWeapon) && selectedLevel == old(selectedLevel)
    {
      var timeUsed := selectedLevel.timeLimit;
      var updated := player.(stats := FoldStats(player.stats, shots, score, accuracy, timeUsed));
      var hits := HitCount(shots);
      var isLevelComplete := IsLevelComplete(hits, selectedLevel.targetCount);
      if isLevelComplete && updated.level == selectedLevel.unlockLevel {
        updated := updated.(level := updated.level + 1);
        updated := updated.(experience := updated.experience + score);
        var newWeapons := NewWeaponIds(Weapons, updated.level, updated.unlockedWeapons);
        updated := updated.(unlockedWeapons := updated.unlockedWeapons + newWeapons);
      }
      var achievements := updated.achievements;
      achievements := UnlockIf(achievements, MarksmanId, accuracy >= 90.0, now);
      achievements := UnlockIf(achievements, PerfectAccuracyId, accuracy == 100.0, now);
      achievements := UnlockIf(achievements, SpeedShooterId, timeUsed <= 20, now);
      achievements := UnlockIf(achievements, FirstBloodId, updated.stats.gamesPlayed == 1, now);
      updated := updated.(achievements := achievements);
      player := updated;
      lastResults := Some(LastResults(score, accuracy, shots, timeUsed));
    }

    method SelectWeapon(w: Weapon)
      requires Valid()
      modifies this
      ensures Valid()
      ensures selectedWeapon == ChooseWeapon(player, old(selectedWeapon), w)
      ensures player == old(player) && selectedLevel == old(selectedLevel) && lastResults == old(lastResults)
    {
      if w.id in player.unlockedWeapons {
        selectedWeapon := w;
      }
    }

    method SelectLevel(l: TrainingLevel)
      requires Valid()
      modifies this
      ensures Valid()
      ensures selectedLevel == ChooseLevel(player, old(selectedLevel), l)
      ensures player == old(player) && selectedWeapon == old(selectedWeapon) && lastResults == old(lastResults)
    {
      if player.level >= l.unlockLevel {
        selectedLevel := l;
      }
    }

    /** The Next Level button: possibly advance the selection, then leave the
        results screen. */
    method NextLevel()
      requires Valid()
      modifies this
      ensures Valid()
      ensures selectedLevel == NextLevelChoice(player, old(selectedLevel))
      ensures lastResults == None
      ensures player == old(player) && selectedWeapon == old(selectedWeapon)
    {
      var nextLevelIndex := FindLevelIndex(TrainingLevels, selectedLevel.id) + 1;
      if nextLevelIndex < |TrainingLevels| && player.level >= TrainingLevels[nextLevelIndex].unlockLevel {
        selectedLevel := TrainingLevels[nextLevelIndex];
      }
      lastResults := None;
    }
  }
}
