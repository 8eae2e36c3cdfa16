/** The static catalog: weapons, training levels, achievements and the record
    a new player starts from. */
module GameData {
  import opened Util
  import opened GameTypes

  const Glock17 := Weapon("glock17", "Glock 17", Pistol, 35, 85, 400, 2.5, 17, 1,
                          "Standard issue 9mm pistol. Reliable and accurate for basic training.")
  const M4A1 := Weapon("m4a1", "M4A1 Carbine", Rifle, 55, 90, 700, 3.1, 30, 5,
                       "Military assault rifle with excellent range and stopping power.")
  const BarrettM82 := Weapon("barrett", "Barrett M82", Sniper, 95, 98, 60, 4.2, 10, 10,
                             "High-powered sniper rifle for precision long-range engagements.")
  const Weapons: seq<Weapon> := [Glock17, M4A1, BarrettM82]

  const TrainingLevels: seq<TrainingLevel> := [
    TrainingLevel("basic1", "Basic Training I", "5 static targets, 30 seconds",
                  5, 30, Easy, [Static], [], 1),
    TrainingLevel("basic2", "Basic Training II", "8 mixed targets, 45 seconds",
                  8, 45, Medium, [Static, Moving], [], 2),
    TrainingLevel("advanced1", "Advanced Training", "12 targets with distractions",
                  12, 60, Hard, [Static, Moving], [Smoke, Flash], 3)
  ]

  const Achievements: seq<Achievement> := [
    Achievement("marksman", "Marksman", "Achieve 90% accuracy in a training session",
                "\U{1F3AF}", false, None),
    Achievement("speed_shooter", "Speed Shooter", "Complete a level in under 20 seconds",
                "\U{26A1}", false, None),
    Achievement("perfect_accuracy", "Perfect Accuracy", "Hit all targets without missing",
                "\U{1F4AF}", false, None),
    Achievement("first_blood", "First Blood", "Complete your first training session",
                "\U{1FA78}", false, None),
    Achievement("weapon_master", "Weapon Master", "Unlock all weapons",
                "\U{1F52B}", false, None)
  ]

  /** The record a new player starts from. Its achievements are
      `achievements.map(a => ({ ...a }))`, a copy of every catalog record;
      with values, that copy is the catalog list itself. */
  const DefaultPlayer: Player := Player(
    "phoenix", "Marcus \"Phoenix\" Rivera", None, 1, 0, ["glock17"],
    Achievements,
    PlayerStats(0, 0, 0.0, 0, 0, 0))

  /** The ids of the catalog weapons a player of `level` may use, in catalog order. */
  function WeaponsUpTo(ws: seq<Weapon>, level: int): (ids: seq<string>)
    ensures forall i :: 0 <= i < |ws| && ws[i].unlockLevel <= level ==> ws[i].id in ids
    ensures forall id :: id in ids ==> exists i :: 0 <= i < |ws| && ws[i].unlockLevel <= level && ws[i].id == id
  {
    if |ws| == 0 then []
    else
      var rest := WeaponsUpTo(ws[1..], level);
      assert forall i :: 1 <= i < |ws| ==> ws[i] == ws[1..][i - 1];
      if ws[0].unlockLevel <= level then [ws[0].id] + rest else rest
  }

  /** Weapons: distinct ids, a magazine of at least one round, and unlock
      levels 1, 5, 10 rising strictly in catalog order. */
  lemma WeaponCatalogWellFormed()
    ensures Distinct(WeaponIds(Weapons))
    ensures forall i :: 0 <= i < |Weapons| ==> Weapons[i].ammoCapacity >= 1
    ensures [Weapons[0].unlockLevel, Weapons[1].unlockLevel, Weapons[2].unlockLevel] == [1, 5, 10]
    ensures forall i, j :: 0 <= i < j < |Weapons| ==> Weapons[i].unlockLevel < Weapons[j].unlockLevel
  {
    assert WeaponIds(Weapons) == ["glock17", "m4a1", "barrett"];
  }

  /** Levels: at least one target, at least one second, a non-empty list of
      target kinds, distinct ids and unlock levels 1, 2, 3 in order. */
  lemma LevelCatalogWellFormed()
    ensures forall i :: 0 <= i < |TrainingLevels| ==>
      TrainingLevels[i].targetCount >= 1 && TrainingLevels[i].timeLimit >= 1 &&
      |TrainingLevels[i].targetTypes| > 0
    ensures forall i :: 0 <= i < |TrainingLevels| ==> TrainingLevels[i].unlockLevel == i + 1
    ensures forall i, j :: 0 <= i < j < |TrainingLevels| ==> TrainingLevels[i].id != TrainingLevels[j].id
  {
  }

  /** Every time limit exceeds 20 seconds, the Speed Shooter threshold. */
  lemma LevelTimeLimitsAboveTwenty()
    ensures forall l :: l in TrainingLevels ==> l.timeLimit > 20
  {
  }

  /** Five achievements with distinct ids, none unlocked and none stamped. */
  lemma AchievementCatalogWellFormed()
    ensures |Achievements| == 5
    ensures forall i, j :: 0 <= i < j < |Achievements| ==> Achievements[i].id != Achievements[j].id
    ensures forall i :: 0 <= i < |Achievements| ==>
      !Achievements[i].unlocked && Achievements[i].unlockedAt.None?
  {
  }

  /** The new player: level 1, no experience, zeroed stats, exactly the
      weapons unlocked at level 1, and the achievement catalog as it stands. */
  lemma DefaultPlayerConsistent()
    ensures DefaultPlayer.level == 1 && DefaultPlayer.experience == 0
    ensures DefaultPlayer.stats == PlayerStats(0, 0, 0.0, 0, 0, 0)
    ensures DefaultPlayer.unlockedWeapons == WeaponsUpTo(Weapons, 1)
    ensures DefaultPlayer.achievements == Achievements
  {
    assert WeaponsUpTo(Weapons[2..], 1) == [];
    assert WeaponsUpTo(Weapons[1..], 1) == [];
  }
}
