/** The records of the training simulator: catalog entries (weapons, levels,
    achievements), the session-scoped targets and shots, and the persistent
    player. JavaScript numbers become `int`/`nat` where the program only ever
    stores whole values and `real` where it stores fractions (positions,
    headings, speeds, accuracies); a `Date` becomes a millisecond count. */
module GameTypes {
  import opened Util

  datatype WeaponClass = Pistol | Rifle | Sniper
  datatype Difficulty = Easy | Medium | Hard
  datatype TargetKind = Static | Moving
  datatype Effect = Smoke | Flash | Darkness

  datatype Weapon = Weapon(
    id: string,
    name: string,
    kind: WeaponClass,
    damage: int,
    accuracy: int,
    fireRate: int,
    reloadTime: real,
    ammoCapacity: nat,
    unlockLevel: int,
    description: string)

  datatype TrainingLevel = TrainingLevel(
    id: string,
    name: string,
    description: string,
    targetCount: nat,
    timeLimit: nat,
    difficulty: Difficulty,
    targetTypes: seq<TargetKind>,
    effects: seq<Effect>,
    unlockLevel: int)

  /** A target on the range; `x` and `y` are percentages of the range's width
      and height, `direction` a heading in degrees. */
  datatype Target = Target(
    id: string,
    x: real,
    y: real,
    size: int,
    kind: TargetKind,
    speed: real,
    direction: real,
    hit: bool,
    points: int)

  datatype Shot = Shot(
    id: string,
    x: real,
    y: real,
    timestamp: nat,
    hit: bool,
    targetId: Option<string>,
    points: int)

  datatype Achievement = Achievement(
    id: string,
    name: string,
    description: string,
    icon: string,
    unlocked: bool,
    unlockedAt: Option<nat>)

  datatype PlayerStats = PlayerStats(
    totalShots: nat,
    totalHits: nat,
    accuracy: real,
    bestTime: int,
    highestScore: int,
    gamesPlayed: nat)

  datatype Player = Player(
    id: string,
    name: string,
    avatar: Option<string>,
    level: int,
    experience: int,
    unlockedWeapons: seq<string>,
    achievements: seq<Achievement>,
    stats: PlayerStats)

  /** `shots.filter(s => s.hit).length`. */
  function HitCount(shots: seq<Shot>): (n: nat)
    ensures n <= |shots|
    ensures n == |shots| <==> forall i :: 0 <= i < |shots| ==> shots[i].hit
  {
    if |shots| == 0 then 0
    else HitCount(shots[..|shots| - 1]) + (if shots[|shots| - 1].hit then 1 else 0)
  }

  lemma HitCountAppend(shots: seq<Shot>, s: Shot)
    ensures HitCount(shots + [s]) == HitCount(shots) + (if s.hit then 1 else 0)
  {
    assert (shots + [s])[..|shots|] == shots;
  }

  /** `weapons.map(w => w.id)`. */
  function WeaponIds(ws: seq<Weapon>): (ids: seq<string>)
    ensures |ids| == |ws|
    ensures forall i :: 0 <= i < |ws| ==> ids[i] == ws[i].id
  {
    seq(|ws|, i requires 0 <= i < |ws| => ws[i].id)
  }
}
