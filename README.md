# Phoenix Protocol training simulator: a Dafny model of its core

Phoenix Protocol is a browser shooting-range trainer. A player picks an
unlocked weapon and a training level they have reached, then shoots at
targets against a countdown. The game grades the session on a results
screen and folds it into a persistent player record: lifetime stats, level
and experience, weapon unlocks and achievements.

This project models four parts of the program.

- **Catalog** (`gamedata.dfy`): the three weapons, the three training
  levels, the five achievements and the new player's record.
- **Range session** (`shootingrange.dfy`): one session, as the `Session`
  class. Its fields are the screen's state: started flag, countdown,
  targets, shot log, magazine, reload flag and score. Each method is one
  event handler or timer callback:
  - `Start` spawns the targets;
  - `SecondElapsed` runs the one-second countdown;
  - `MotionTick` runs the 50 ms motion step, which bounces off the walls;
  - `Shoot` resolves a shot (hit test, score, marking the target, the end
    check) and `Fire` does the work after `Shoot`'s guard;
  - `Reload` and `ReloadDone` handle reloading;
  - `End` ends the session;
  - `Hud` reads the heads-up counters.

  Pure functions state what each step computes. Lemmas relate those
  functions to the bookkeeping `Session.Valid` keeps: the score is the sum
  of shot points, hit shots match hit targets, and targets keep their ids
  and sizes.
- **Results screen** (`trainingresults.dfy`): the letter grade, the 60 %
  pass rule, time remaining, badges, action buttons and tips.
- **Progression** (`app.dfy`): the completion handler.
  - `Advance` states it on values and `Game.TrainingComplete` performs it
    step by step on the application state.
  - Lemmas cover the level gate, monotone progress, weapon unlocks without
    duplicates, the achievement checks and their idempotence.
  - `ChooseWeapon`, `ChooseLevel` and `NextLevelChoice` are the selection
    guards. They keep the invariant that the selected weapon is unlocked and
    the selected level reached.

`types.dfy` holds the records; `util.dfy` holds `Option`, `Distinct` and
decimal rendering.

## How the model represents the program

- **Randomness:** the `Math.random()` values drawn for one target are
  passed in as a `Draw` of reals in [0, 1): x, y, kind, speed and heading.
  The speed is drawn only when the level has moving targets; otherwise the
  `speed` field of the `Draw` is unused and the heading takes the fourth
  draw.
- **Clock:** given as a millisecond count `now`.
- **Trigonometry:**
  - cosine and sine of a heading in degrees are function parameters of
    `MotionTick`;
  - the square root in the hit test is replaced by the equivalent comparison
    of squares.
- **Numbers:** JavaScript numbers become `int` or `nat` where the program
  only stores whole values, and `real` where it stores fractions.
- **React updates:** each asynchronous state update is a sequential field
  assignment, in handler order.

## Behaviour of note

- **Hit rule:** a shot selects the first target in list order that is not
  yet hit and lies within the radius (`FirstHit`). When targets overlap,
  that is the earliest one in the list, whichever is nearest.
- **Ending and restarting have no guard:** ending the session can happen
  repeatedly, and each call reports the current results again. Starting has
  no guard either, and it leaves the reload flag as it was.
- **Motion:** a target moves only when it is a moving target, is not hit
  and has a non-zero speed (`Moves`).
- **Speed Shooter:** the time used is always the level's full time limit.
  Every catalog limit is above 20 seconds, so Speed Shooter can never unlock
  from a catalog level (`SpeedShooterNeverFromCatalog`).
- **Empty list of target kinds:** a level with no target kinds yields a
  target of undefined kind. The model makes it `Static`, which is how the
  motion code treats it.

## Model

| member | source | states |
|---|---|---|
| Util.NatToString | src/components/ShootingRange.tsx:48 | the decimal rendering used in ids is non-empty, all digits, and has two or more digits from 10 up |
| Util.NatToStringInjective | src/components/ShootingRange.tsx:48 | different numbers render differently, so generated ids are distinct |
| GameTypes.HitCount | src/components/TrainingResults.tsx:31 | the hit count never exceeds the shot count and equals it exactly when every shot hit |
| GameTypes.HitCountAppend | src/components/ShootingRange.tsx:172 | appending a shot raises the hit count by one exactly when the shot hit |
| GameData.WeaponCatalogWellFormed | src/data/gameData.ts:3-40 | weapon ids are distinct, every magazine holds at least one round, and unlock levels are 1, 5, 10, strictly rising |
| GameData.LevelCatalogWellFormed | src/data/gameData.ts:42-76 | each level has at least one target, a positive time limit and a kind list; unlock levels are 1, 2, 3; ids are distinct |
| GameData.LevelTimeLimitsAboveTwenty | src/data/gameData.ts:48 | every catalog time limit exceeds 20 seconds |
| GameData.AchievementCatalogWellFormed | src/data/gameData.ts:78-114 | five achievements, no two with the same id, all locked and unstamped |
| GameData.DefaultPlayerConsistent | src/data/gameData.ts:116-131 | the new player is level 1 with no experience and zeroed stats, holds exactly the level-1 weapons, and starts from a copy of every catalog achievement |
| ShootingRange.TargetIdInjective | src/components/ShootingRange.tsx:48 | target ids `target-i` are distinct for distinct i |
| ShootingRange.TargetIdsUnique | src/components/ShootingRange.tsx:48 | in a well-formed target list an id names a single position |
| ShootingRange.PickKind | src/components/ShootingRange.tsx:52 | the kind drawn is one of the level's kinds; Static when the list is empty |
| ShootingRange.Spawn | src/components/ShootingRange.tsx:47-57 | a fresh target has its index id, size 60, 100 points and is not hit; position in [10,90)×[20,80); speed in [1,3) when the level has moving targets, else 0; heading in [0,360) |
| ShootingRange.CountHit | src/components/ShootingRange.tsx:194 | the hit-target count never exceeds the number of targets |
| ShootingRange.CountHitAll | src/components/ShootingRange.tsx:194 | the hit-target count equals the number of targets exactly when every target is hit |
| ShootingRange.CountHitNone | src/components/ShootingRange.tsx:53 | a freshly spawned list has no hit targets |
| ShootingRange.CountHitFlip | src/components/ShootingRange.tsx:166-169 | knocking down one standing target raises the hit-target count by exactly one |
| ShootingRange.CountHitSameFlags | src/components/ShootingRange.tsx:96-116 | lists whose hit flags agree have equal hit-target counts |
| ShootingRange.WithinHitRadius | src/components/ShootingRange.tsx:153-157 | a target within the radius has a positive size and lies strictly inside the square of half-width size/8 around the aim point |
| ShootingRange.HitBox | src/components/ShootingRange.tsx:153-157 | a point closer than r to the centre lies strictly within r of it on each axis |
| ShootingRange.SquareBelow | src/components/ShootingRange.tsx:153-157 | one coordinate of a point closer than r lies strictly between -r and r |
| ShootingRange.FirstHit | src/components/ShootingRange.tsx:151-158 | the selected index is a standing target within the radius and no earlier target qualifies; none is selected exactly when no target qualifies |
| ShootingRange.HitTargetNeverSelected | src/components/ShootingRange.tsx:152 | a target already hit is never selected |
| ShootingRange.ResolveShot | src/components/ShootingRange.tsx:141-163 | the shot records the aim point and time; it is a hit exactly when a target is selected, and then carries that target's id and points; otherwise no id and 0 points |
| ShootingRange.MarkHit | src/components/ShootingRange.tsx:167-169 | the list keeps its length; a target is hit afterwards exactly when it was hit before or carries the id; nothing but a hit flag changes |
| ShootingRange.MarkHitOnlyThat | src/components/ShootingRange.tsx:167-169 | marking by id in a well-formed list changes only the selected position |
| ShootingRange.TargetsAfterShot | src/components/ShootingRange.tsx:160-170 | after a shot the selected target is down and nothing else differs; a miss changes nothing |
| ShootingRange.ShotKeepsBookkeeping | src/components/ShootingRange.tsx:160-173 | a resolved shot keeps the session `Consistent`: targets and shots stay well formed, the score stays the sum of shot points once the shot's points are added, and hit shots stay equal to hit targets |
| ShootingRange.ShotOutcome | src/components/ShootingRange.tsx:141-169 | the record and list built step by step (a miss, upgraded on a hit; the target marked by id) equal the resolved shot and the new target list |
| ShootingRange.Remaining | src/components/ShootingRange.tsx:176 | the end-check filter never lengthens the list |
| ShootingRange.RemainingMembers | src/components/ShootingRange.tsx:176 | the end-check filter keeps exactly the standing targets other than the one just hit |
| ShootingRange.RemainingEmptyIffAllHit | src/components/ShootingRange.tsx:176-179 | the end is scheduled exactly when every target is down after the shot |
| ShootingRange.SumPointsAppend | src/components/ShootingRange.tsx:164 | a new shot adds its points to the total |
| ShootingRange.ScoreIsPointsPerHit | src/components/ShootingRange.tsx:54 | with well-formed shots the score is 100 per hit |
| ShootingRange.RatioAtMostOne | src/components/ShootingRange.tsx:193 | a hit ratio lies in [0,1], is 1 exactly when all shots hit and 0 exactly when none did |
| ShootingRange.Accuracy | src/components/ShootingRange.tsx:192-193 | accuracy is in [0,100]; 100 exactly when there are shots and all hit; 0 exactly when nothing hit |
| ShootingRange.Moves | src/components/ShootingRange.tsx:98 | the motion condition: a moving target, not hit, with a non-zero speed |
| ShootingRange.MoveTarget | src/components/ShootingRange.tsx:98-114 | a target that cannot move is unchanged; a moving one changes only position and heading and stays inside the walls; on each axis it takes the unclamped step when that lands inside, and otherwise sits on the wall it crossed; the heading is negated at a top or bottom wall, else mirrored at a side wall, else kept |
| ShootingRange.MoveAll | src/components/ShootingRange.tsx:96-116 | every target takes its own motion step, with the cosine and sine of its own heading |
| ShootingRange.MotionKeepsTargetsWellFormed | src/components/ShootingRange.tsx:96-116 | motion keeps targets well formed and leaves every hit flag, and so the hit count, as it was |
| ShootingRange.Session.constructor | src/components/ShootingRange.tsx:31-37 | the initial state: not started, a full clock and magazine, no targets, no shots, score 0 |
| ShootingRange.Session.Start | src/components/ShootingRange.tsx:44-79 | the session starts with a full clock and magazine, score 0, no shots, and target k spawned from draw k; the reload flag is kept |
| ShootingRange.Session.SecondElapsed | src/components/ShootingRange.tsx:82-89 | a running clock loses one second; the session ends and reports its results exactly when it is started and the clock reads 0; nothing else changes |
| ShootingRange.Session.MotionTick | src/components/ShootingRange.tsx:92-122 | a running session moves every target one step; a stopped one changes nothing |
| ShootingRange.Session.Shoot | src/components/ShootingRange.tsx:134-180 | refused unless started, loaded and not reloading (nothing changes); otherwise one round is spent, the resolved shot is logged, its points are scored, the selected target goes down, and the end is scheduled exactly when all targets are down |
| ShootingRange.Session.Fire | src/components/ShootingRange.tsx:141-179 | the effect of an accepted shot, as above |
| ShootingRange.Session.Reload | src/components/ShootingRange.tsx:183-185 | a reload starts exactly when none is under way and the magazine is not full; nothing else changes |
| ShootingRange.Session.ReloadDone | src/components/ShootingRange.tsx:186-189 | the magazine is refilled and the reload is over |
| ShootingRange.Session.End | src/components/ShootingRange.tsx:64-69 | the session stops and reports its score, its accuracy and its shots; the reported score is 100 per hit |
| ShootingRange.Session.Hud | src/components/ShootingRange.tsx:192-194 | the counters are the hit count and the accuracy; targets hit equal hits; hits never exceed the shots or the targets; accuracy is in [0,100]; the score is 100 per hit |
| TrainingResults.Rank | src/components/TrainingResults.tsx:36-42 | grades rank from D (0) to S (4) |
| TrainingResults.GetGrade | src/components/TrainingResults.tsx:36-42 | S, A, B, C and D each hold exactly on their accuracy interval |
| TrainingResults.GradeMonotone | src/components/TrainingResults.tsx:36-42 | a higher accuracy never earns a lower grade |
| TrainingResults.IsLevelComplete | src/components/TrainingResults.tsx:45 | the 60 % rule `hits >= targetCount * 0.6` holds exactly when 5·hits ≥ 3·targets |
| TrainingResults.TimeRemaining | src/components/TrainingResults.tsx:136 | the remaining time is never negative and is the difference whenever that is not negative |
| TrainingResults.Badges | src/components/TrainingResults.tsx:148-172 | each of the five badges shows exactly when its condition holds |
| TrainingResults.PerfectImpliesMarksman | src/components/TrainingResults.tsx:148-157 | Perfect Accuracy never shows without Marksman |
| TrainingResults.NoWastedMeansAllHit | src/components/TrainingResults.tsx:168 | No Wasted Shots means at least one shot, and every shot hit |
| TrainingResults.Actions | src/components/TrainingResults.tsx:177-202 | Back and Retry are always offered; Next Level exactly when the session passed |
| TrainingResults.Tips | src/components/TrainingResults.tsx:210-221 | each of the four tips shows exactly when its condition holds |
| TrainingResults.TipsExclusive | src/components/TrainingResults.tsx:210-221 | the steady-aim advice and the praise never appear together |
| TrainingResults.ReadyForMoreIffGradeS | src/components/TrainingResults.tsx:219-221 | the praise tip shows exactly when the grade is S |
| App.RunningMeanBounds | src/App.tsx:68 | folding a percentage into a running mean of percentages gives a percentage |
| App.FoldStats | src/App.tsx:62-73 | shots, hits and games add up; best score is the maximum and best time the minimum (the first time when there was none); hits ≤ shots and a mean in [0,100] are preserved |
| App.FoldStatsMean | src/App.tsx:68 | the new mean times games+1 is the old total plus this session's accuracy |
| App.NewWeaponIds | src/App.tsx:84-87 | every catalog weapon of the level not yet unlocked is added; each added id is new and belongs to a catalog weapon of the level |
| App.NewWeaponIdsDistinct | src/App.tsx:84-88 | with distinct catalog ids no weapon is added twice |
| App.AppendDistinct | src/App.tsx:88 | appending new ids to a duplicate-free list keeps it duplicate-free |
| App.FindAchievement | src/App.tsx:95-96 | the index found is the first achievement with the id; none exactly when no achievement has it |
| App.UnlockIf | src/App.tsx:95-101 | one check keeps the list's length; each entry either stays as it was or, when the condition holds and the entry carries the id, goes from locked to unlocked and stamped with the current time |
| App.UnlockIfEvolves | src/App.tsx:95-101 | one check only unlocks and stamps, never touches another id, and leaves the check settled |
| App.EvolvesTransitive | src/App.tsx:92-128 | consecutive checks compose into a single unlocking step |
| App.SettledStaysSettled | src/App.tsx:92-128 | a later check cannot undo an earlier one |
| App.SettledIsNoop | src/App.tsx:95 | a check with nothing to do changes nothing |
| App.CheckAchievements | src/App.tsx:92-128 | the four checks keep the list's length and every entry's id |
| App.CheckAchievementsChanges | src/App.tsx:92-128 | an entry the checks change was locked, has a check whose condition held, and is now unlocked and stamped with the current time |
| App.CheckAchievementsEffect | src/App.tsx:92-128 | the four checks only unlock and touch only their four ids; each check whose condition held leaves its achievement unlocked; conversely, every entry that changed was locked, its condition held, and it is now stamped with the current time |
| App.CheckAchievementsIdempotent | src/App.tsx:92-128 | running the checks again changes nothing when no condition is newly met, whatever the clock says |
| App.LevelsUp | src/App.tsx:76-79 | the player levels up exactly when 5·hits ≥ 3·targets and the level played is the player's current level |
| App.Advance | src/App.tsx:58-135 | the completion handler changes only stats, level, experience, unlocked weapons and achievements; the achievement list keeps its length; one more game is counted |
| App.AdvanceLevelGate | src/App.tsx:76-82 | level and experience rise, by one and by the score, exactly when the session passed on the player's current level; otherwise level, experience and weapons stay |
| App.ReplayNeverLevelsUp | src/App.tsx:79 | replaying a level other than the player's current one never raises level or experience |
| App.AdvanceMonotone | src/App.tsx:58-135 | with a non-negative score, the level rises by at most one, experience never falls, unlocked weapons only grow with their order kept, and achievements only unlock |
| App.AdvanceUnlocksWeapons | src/App.tsx:84-88 | after a level-up every catalog weapon of the new level is unlocked, only such weapons were added, and no id appears twice |
| App.AdvanceAchievements | src/App.tsx:92-130 | achievements only unlock, Weapon Master is never touched, and each check whose condition held leaves its achievement unlocked (First Blood on the first game); conversely, every achievement that changed was locked, its condition held, and it is now stamped with the current time |
| App.AdvanceAchievementsIdempotent | src/App.tsx:92-130 | replaying the update on the same session leaves the achievements as the first run did |
| App.SpeedShooterNeverFromCatalog | src/App.tsx:113 | playing a catalog level never changes Speed Shooter |
| App.AdvanceKeepsStatsSane | src/App.tsx:62-73 | with session results as the range reports them, lifetime hits never exceed shots and the running accuracy stays a percentage |
| App.CatalogUnlock | src/App.tsx:95-100 | unlocking by id marks and stamps the first holder of the id |
| App.FirstPerfectAchievements | src/App.tsx:92-128 | a new player's first 100 % session on a 30-second level unlocks Marksman, Perfect Accuracy and First Blood, and nothing else |
| App.FirstPerfectSession | src/App.tsx:58-135 | a first perfect Basic Training I session reaches level 2 with 500 experience, adds no weapon, and records the stats 5/5, 100 %, 30 s, 500, 1 game |
| App.ChooseWeapon | src/App.tsx:138-142 | a weapon is selected exactly when unlocked; otherwise the selection stays; the selection stays unlocked |
| App.ChooseLevel | src/App.tsx:145-149 | a level is selected exactly when reached; otherwise the selection stays; the selection stays reachable |
| App.FindLevelIndex | src/App.tsx:228 | the index is the first level with the id, and -1 exactly when no level has it |
| App.NextLevelChoice | src/App.tsx:227-231 | the Next Level choice is always a level the player has reached |
| App.NextLevelFromCatalog | src/App.tsx:228-231 | from catalog level i the choice is level i+1 when it exists and is reached, otherwise level i |
| App.Game.constructor | src/App.tsx:11-14 | the application starts with the default player, the first weapon, the first level and no results |
| App.Game.TrainingComplete | src/App.tsx:58-135 | the stored player is `Advance` of the old one and the results shown carry the full time limit; the selections stay valid |
| App.Game.SelectWeapon | src/App.tsx:138-142 | the selection follows `ChooseWeapon` and nothing else changes |
| App.Game.SelectLevel | src/App.tsx:145-149 | the selection follows `ChooseLevel` and nothing else changes |
| App.Game.NextLevel | src/App.tsx:227-234 | the selection follows `NextLevelChoice` and the results are cleared |

## Left out

- **Rendering:** every JSX tree, class name, colour and progress bar. The
  menu, weapon-select, level-select and profile screens only display state,
  and their navigation callbacks only switch screens.
- **Storage:** loading and saving the player and the avatar in
  `localStorage`, with the JSON parse errors and fallback it handles, and
  avatar upload. These are I/O.
- **Timers:** scheduling with `setTimeout` and `setInterval`, and clearing
  them. This includes the 500 ms delay before the end and the reload delay
  of `reloadTime`. Each callback is a method, and the caller decides when to
  call it.
- **Muzzle flash and crosshair:** the 100 ms muzzle flash is left out. The
  mouse-to-crosshair mapping, with its clamp to [0,100], is also left out:
  `Shoot` takes the aim point as parameters.
- **React state timing:** stale closures and batched updates. An end
  scheduled by a shot runs the `endGame` of the render in which the shot was
  fired (src/components/ShootingRange.tsx:64-69, 176-178). That closure holds
  the shots and score from before the shot, so a session that ends by hitting
  its last target reports its results without that final shot. For example,
  a 5-of-5 run of Basic Training I reports 4 shots and a score of 400, and
  the results screen then shows no All Targets Hit badge. `Session.End`
  reports the current state instead, with the final shot included.
- **Shared objects in place:** the completion handler copies only the top
  of the player record. Pushing weapon ids and unlocking achievements
  therefore also changes, in place, the objects the previous player record
  (and the default player) shares. `Advance` and `Game.TrainingComplete`
  work on values.
- **Floating point:** rounding is not modelled; JavaScript numbers become
  exact reals.
- ShootingRange.PickKind: with an empty kind list the program reads an
  undefined kind; the model returns `Static` instead.
- ShootingRange.Session.SecondElapsed: a level with a time limit of 0 ends
  at the model's next timer call, not during the render that starts it.
- ShootingRange.MoveTarget: NaN speeds and headings are not modelled, since
  reals have no NaN.
- **Unused code:** the `GameSession` and `GameContext` types
  (src/types/game.ts). Nothing in the program uses them.
- **Level effects** (smoke, flash, darkness): they are decorative. The
  session, results and progression code never read them; the catalog keeps
  them as data.
