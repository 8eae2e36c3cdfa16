/** The decisions of the results screen: letter grade, pass rule, time
    remaining, the badges shown, the actions offered and the tips given. */
module TrainingResults {
  import opened GameTypes

  datatype Grade = S | A | B | C | D

  /** D is the lowest rank, S the highest. */
  function Rank(g: Grade): (n: nat)
    ensures n <= 4
  {
    match g
    case D => 0
    case C => 1
    case B => 2
    case A => 3
    case S => 4
  }

  /** `getGrade`: S from 90 %, A from 80 %, B from 70 %, C from 60 %, else D. */
  function GetGrade(accuracy: real): (g: Grade)
    ensures g == S <==> accuracy >= 90.0
    ensures g == A <==> 80.0 <= accuracy < 90.0
    ensures g == B <==> 70.0 <= accuracy < 80.0
    ensures g == C <==> 60.0 <= accuracy < 70.0
    ensures g == D <==> accuracy < 60.0
  {
    if accuracy >= 90.0 then S
    else if accuracy >= 80.0 then A
    else if accuracy >= 70.0 then B
    else if accuracy >= 60.0 then C
    else D
  }

  /** A better accuracy never earns a worse grade. */
  lemma GradeMonotone(a1: real, a2: real)
    requires a1 <= a2
    ensures Rank(GetGrade(a1)) <= Rank(GetGrade(a2))
  {
  }

  /** The 60 % pass rule `hits >= targetCount * 0.6`; the progression gate
      uses this same predicate. On whole numbers it is
      `5 * hits >= 3 * targetCount`, so the product cannot tip an integer
      comparison. */
  predicate IsLevelComplete(hits: nat, targetCount: nat)
    ensures IsLevelComplete(hits, targetCount) <==> 5 * hits >= 3 * targetCount
  {
    hits as real >= targetCount as real * 0.6
  }

  /** The session passed: enough of the level's targets were hit. */
  predicate Passed(shots: seq<Shot>, level: TrainingLevel)
  {
    IsLevelComplete(HitCount(shots), level.targetCount)
  }

  /** `Math.max(0, timeLimit - timeUsed)`. */
  function TimeRemaining(timeLimit: int, timeUsed: int): (r: int)
    ensures r >= 0 && r >= timeLimit - timeUsed
    ensures r == 0 || r == timeLimit - timeUsed
  {
    if timeLimit - timeUsed >= 0 then timeLimit - timeUsed else 0
  }

  datatype Badge = PerfectAccuracy | Marksman | SpeedShooter | AllTargetsHit | NoWastedShots

  /** One badge slot: the badge when its condition holds, nothing otherwise. */
  function BadgeIf(cond: bool, b: Badge): (bs: seq<Badge>)
    ensures forall x :: x in bs <==> cond && x == b
    ensures |bs| <= 1
  {
    if cond then [b] else []
  }

  /** The badges shown, in display order. */
  function Badges(accuracy: real, timeUsed: int, shots: seq<Shot>, level: TrainingLevel): (bs: seq<Badge>)
    ensures PerfectAccuracy in bs <==> accuracy == 100.0
    ensures Marksman in bs <==> accuracy >= 90.0
    ensures SpeedShooter in bs <==> timeUsed <= 20
    ensures AllTargetsHit in bs <==> HitCount(shots) == level.targetCount
    ensures NoWastedShots in bs <==> |shots| == HitCount(shots) && HitCount(shots) > 0
    ensures |bs| <= 5
  {
    var hits := HitCount(shots);
    BadgeIf(accuracy == 100.0, PerfectAccuracy) +
    BadgeIf(accuracy >= 90.0, Marksman) +
    BadgeIf(timeUsed <= 20, SpeedShooter) +
    BadgeIf(hits == level.targetCount, AllTargetsHit) +
    BadgeIf(|shots| == hits && hits > 0, NoWastedShots)
  }

  /** Perfect Accuracy never shows without Marksman. */
  lemma PerfectImpliesMarksman(accuracy: real, timeUsed: int, shots: seq<Shot>, level: TrainingLevel)
    ensures PerfectAccuracy in Badges(accuracy, timeUsed, shots, level) ==>
            Marksman in Badges(accuracy, timeUsed, shots, level)
  {
  }

  /** No Wasted Shots means every shot scored. */
  lemma NoWastedMeansAllHit(accuracy: real, timeUsed: int, shots: seq<Shot>, level: TrainingLevel)
    ensures NoWastedShots in Badges(accuracy, timeUsed, shots, level) ==>
            |shots| > 0 && forall i :: 0 <= i < |shots| ==> shots[i].hit
  {
  }

  datatype Action = BackToMenu | Retry | NextLevel

  /** The buttons offered; Next Level only when the session passed. */
  function Actions(shots: seq<Shot>, level: TrainingLevel): (acts: seq<Action>)
    ensures NextLevel in acts <==> Passed(shots, level)
    ensures BackToMenu in acts && Retry in acts
  {
    [BackToMenu, Retry] + (if Passed(shots, level) then [NextLevel] else [])
  }

  datatype Tip = SteadyAim | AcquisitionSpeed | ConserveAmmo | ReadyForMore

  /** The tactical-analysis tips shown, in display order. */
  function Tips(accuracy: real, timeUsed: int, shots: seq<Shot>, level: TrainingLevel): (ts: seq<Tip>)
    ensures SteadyAim in ts <==> accuracy < 70.0
    ensures AcquisitionSpeed in ts <==> timeUsed as real > level.timeLimit as real * 0.8
    ensures ConserveAmmo in ts <==> |shots| > level.targetCount * 2
    ensures ReadyForMore in ts <==> accuracy >= 90.0
  {
    (if accuracy < 70.0 then [SteadyAim] else []) +
    (if timeUsed as real > level.timeLimit as real * 0.8 then [AcquisitionSpeed] else []) +
    (if |shots| > level.targetCount * 2 then [ConserveAmmo] else []) +
    (if accuracy >= 90.0 then [ReadyForMore] else [])
  }

  /** The advice to steady one's aim and the praise for precision never appear together. */
  lemma TipsExclusive(accuracy: real, timeUsed: int, shots: seq<Shot>, level: TrainingLevel)
    ensures !(SteadyAim in Tips(accuracy, timeUsed, shots, level) &&
              ReadyForMore in Tips(accuracy, timeUsed, shots, level))
  {
  }

  /** The praise tip and the S grade go together. */
  lemma ReadyForMoreIffGradeS(accuracy: real, timeUsed: int, shots: seq<Shot>, level: TrainingLevel)
    ensures ReadyForMore in Tips(accuracy, timeUsed, shots, level) <==> GetGrade(accuracy) == S
  {
  }
}
