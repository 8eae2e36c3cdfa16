/** One timed shooting session: target spawning, per-tick target motion with
    wall reflection, shot resolution, ammunition and reload, countdown and
    termination. The React state of the range screen is the `Session` class;
    each event handler or timer callback is one of its methods. Random draws,
    the clock and the cosine/sine of headings are parameters. */
module ShootingRange {
  import opened Util
  import opened GameTypes

  /** Every spawned target is 60 px wide and worth 100 points. */
  const TargetSize: int := 60
  const TargetPoints: int := 100

  /** The walls of the motion area, in percent of the range. */
  const MinX: real := 5.0
  const MaxX: real := 95.0
  const MinY: real := 15.0
  const MaxY: real := 85.0

  /** What a session hands to its caller when it ends. */
  datatype SessionResult = SessionResult(score: int, accuracy: real, shots: seq<Shot>)

  // ---------------------------------------------------------------------------
  // Spawning

  /** The `Math.random()` values drawn for one target: position, kind, speed
      and heading. The speed is drawn only when the level has moving targets;
      otherwise `speed` is unused and the heading takes the fourth draw. */
  datatype Draw = Draw(x: real, y: real, kind: real, speed: real, heading: real)

  predicate IsUnit(r: real)
  {
    0.0 <= r < 1.0
  }

  predicate DrawValid(d: Draw)
  {
    IsUnit(d.x) && IsUnit(d.y) && IsUnit(d.kind) && IsUnit(d.speed) && IsUnit(d.heading)
  }

  function TargetId(i: nat): string
  {
    "target-" + NatToString(i)
  }

  lemma TargetIdInjective(i: nat, j: nat)
    requires TargetId(i) == TargetId(j)
    ensures i == j
  {
    PrefixCancel("target-", NatToString(i), NatToString(j));
    NatToStringInjective(i, j);
  }

  /** `types[Math.floor(r * types.length)]`. With no kinds at all the program
      reads an undefined kind, which the motion code treats as not moving; the
      model gives it `Static`. */
  function PickKind(types: seq<TargetKind>, r: real): (k: TargetKind)
    requires IsUnit(r)
    ensures |types| > 0 ==> k in types
    ensures |types| == 0 ==> k == Static
  {
    if |types| == 0 then Static
    else
      var n := |types| as real;
      assert r * n < n by {
        assert (1.0 - r) * n > 0.0;
      }
      types[(r * n).Floor]
  }

  /** The target number `i` of a fresh session, built from its draws. */
  function Spawn(level: TrainingLevel, i: nat, d: Draw): (t: Target)
    requires DrawValid(d)
    ensures t.id == TargetId(i) && t.size == TargetSize && t.points == TargetPoints && !t.hit
    ensures 10.0 <= t.x < 90.0 && 20.0 <= t.y < 80.0
    ensures |level.targetTypes| > 0 ==> t.kind in level.targetTypes
    ensures Moving in level.targetTypes ==> 1.0 <= t.speed < 3.0
    ensures Moving !in level.targetTypes ==> t.speed == 0.0
    ensures 0.0 <= t.direction < 360.0
  {
    Target(
      TargetId(i),
      d.x * 80.0 + 10.0,
      d.y * 60.0 + 20.0,
      TargetSize,
      PickKind(level.targetTypes, d.kind),
      if Moving in level.targetTypes then d.speed * 2.0 + 1.0 else 0.0,
      d.heading * 360.0,
      false,
      TargetPoints)
  }

  /** What every target of a session looks like, whatever has happened to it. */
  predicate TargetWellFormed(t: Target, i: nat)
  {
    t.id == TargetId(i) && t.size == TargetSize && t.points == TargetPoints
  }

  predicate TargetsWellFormed(ts: seq<Target>)
  {
    forall i :: 0 <= i < |ts| ==> TargetWellFormed(ts[i], i)
  }

  /** In a well-formed target list an id names one position only. */
  lemma TargetIdsUnique(ts: seq<Target>, i: nat, j: nat)
    requires TargetsWellFormed(ts)
    requires i < |ts| && j < |ts| && ts[i].id == ts[j].id
    ensures i == j
  {
    TargetIdInjective(i, j);
  }

  /** `targets.filter(t => t.hit).length`. */
  function CountHit(ts: seq<Target>): (n: nat)
    ensures n <= |ts|
  {
    if |ts| == 0 then 0 else (if ts[0].hit then 1 else 0) + CountHit(ts[1..])
  }

  /** Every target is hit exactly when the hit count reaches the list's length. */
  lemma {:induction false} CountHitAll(ts: seq<Target>)
    ensures CountHit(ts) == |ts| <==> AllHit(ts)
  {
    if |ts| > 0 {
      CountHitAll(ts[1..]);
      assert forall i :: 1 <= i < |ts| ==> ts[i] == ts[1..][i - 1];
    }
  }

  lemma {:induction false} CountHitNone(ts: seq<Target>)
    requires forall i :: 0 <= i < |ts| ==> !ts[i].hit
    ensures CountHit(ts) == 0
  {
    if |ts| > 0 {
      CountHitNone(ts[1..]);
    }
  }

  /** Flipping one unhit target raises the count of hit targets by exactly one. */
  lemma {:induction false} CountHitFlip(ts: seq<Target>, k: nat)
    requires k < |ts| && !ts[k].hit
    ensures CountHit(ts[k := ts[k].(hit := true)]) == CountHit(ts) + 1
  {
    var u := ts[k := ts[k].(hit := true)];
    if k == 0 {
      assert u[1..] == ts[1..];
    } else {
      assert u[1..] == ts[1..][k - 1 := ts[k].(hit := true)];
      CountHitFlip(ts[1..], k - 1);
    }
  }

  /** Two lists whose hit flags agree position by position count alike. */
  lemma {:induction false} CountHitSameFlags(a: seq<Target>, b: seq<Target>)
    requires |a| == |b|
    requires forall i :: 0 <= i < |a| ==> a[i].hit == b[i].hit
    ensures CountHit(a) == CountHit(b)
  {
    if |a| > 0 {
      CountHitSameFlags(a[1..], b[1..]);
    }
  }

  // ---------------------------------------------------------------------------
  // Shots

  /** `Math.sqrt(dx*dx + dy*dy) < target.size / 8`, stated on squares: a
      distance, never negative, is below `r` exactly when `r` is positive and
      the squared distance is below `r * r`. */
  predicate WithinHitRadius(t: Target, x: real, y: real)
    ensures WithinHitRadius(t, x, y) ==>
      && t.size > 0
      && -(t.size as real / 8.0) < t.x - x < t.size as real / 8.0
      && -(t.size as real / 8.0) < t.y - y < t.size as real / 8.0
  {
    HitBox(t.x - x, t.y - y, t.size as real / 8.0);
    var r := t.size as real / 8.0;
    var dx := t.x - x;
    var dy := t.y - y;
    r > 0.0 && dx * dx + dy * dy < r * r
  }

  /** A point strictly inside the circle of radius `r` lies strictly inside
      its bounding square. */
  lemma HitBox(dx: real, dy: real, r: real)
    ensures r > 0.0 && dx * dx + dy * dy < r * r ==> -r < dx < r && -r < dy < r
  {
    if r > 0.0 && dx * dx + dy * dy < r * r {
      SquareBelow(dx, dy, r);
      SquareBelow(dy, dx, r);
    }
  }

  lemma SquareBelow(d: real, e: real, r: real)
    requires r > 0.0 && d * d + e * e < r * r
    ensures -r < d < r
  {
    assert e * e >= 0.0;
  }

  predicate Hittable(t: Target, x: real, y: real)
  {
    !t.hit && WithinHitRadius(t, x, y)
  }

  /** `targets.find(...)`: the FIRST target in list order that is still up and
      within the hit radius of (x, y); not the nearest one. */
  function FirstHit(ts: seq<Target>, x: real, y: real): (r: Option<nat>)
    ensures r.Some? ==> r.value < |ts| && Hittable(ts[r.value], x, y)
    ensures r.Some? ==> forall j :: 0 <= j < r.value ==> !Hittable(ts[j], x, y)
    ensures r.None? <==> forall j :: 0 <= j < |ts| ==> !Hittable(ts[j], x, y)
  {
    if |ts| == 0 then None
    else if Hittable(ts[0], x, y) then Some(0)
    else
      match FirstHit(ts[1..], x, y)
      case None => None
      case Some(k) => Some(k + 1)
  }

  /** A target already hit is never the one a shot selects. */
  lemma HitTargetNeverSelected(ts: seq<Target>, x: real, y: real, i: nat)
    requires i < |ts| && ts[i].hit
    ensures FirstHit(ts, x, y) != Some(i)
  {
  }

  /** The Shot record `handleShoot` appends for a shot at (x, y) at time `now`. */
  function ResolveShot(ts: seq<Target>, x: real, y: real, now: nat): (s: Shot)
    ensures s.x == x && s.y == y && s.timestamp == now
    ensures s.hit <==> FirstHit(ts, x, y).Some?
    ensures s.hit ==> s.targetId == Some(ts[FirstHit(ts, x, y).value].id)
                      && s.points == ts[FirstHit(ts, x, y).value].points
    ensures !s.hit ==> s.targetId == None && s.points == 0
  {
    var miss := Shot("shot-" + NatToString(now), x, y, now, false, None, 0);
    match FirstHit(ts, x, y)
    case None => miss
    case Some(k) => miss.(hit := true, targetId := Some(ts[k].id), points := ts[k].points)
  }

  /** `prev.map(t => t.id === id ? { ...t, hit: true } : t)`. */
  function MarkHit(ts: seq<Target>, id: string): (r: seq<Target>)
    ensures |r| == |ts|
    ensures forall i :: 0 <= i < |ts| ==> r[i].hit == (ts[i].hit || ts[i].id == id)
    ensures forall i :: 0 <= i < |ts| ==> r[i] == ts[i].(hit := r[i].hit)
  {
    seq(|ts|, i requires 0 <= i < |ts| => if ts[i].id == id then ts[i].(hit := true) else ts[i])
  }

  /** Marking by id touches only the one target that carries the id. */
  lemma MarkHitOnlyThat(ts: seq<Target>, k: nat)
    requires TargetsWellFormed(ts) && k < |ts|
    ensures MarkHit(ts, ts[k].id) == ts[k := ts[k].(hit := true)]
  {
    var r := MarkHit(ts, ts[k].id);
    forall i | 0 <= i < |ts| && i != k
      ensures r[i] == ts[i]
    {
      if ts[i].id == ts[k].id {
        TargetIdsUnique(ts, i, k);
      }
    }
  }

  /** The target list once a shot at (x, y) has been resolved: the selected
      target, if any, is down and nothing else differs. */
  function TargetsAfterShot(ts: seq<Target>, x: real, y: real): (r: seq<Target>)
    ensures FirstHit(ts, x, y).None? ==> r == ts
    ensures FirstHit(ts, x, y).Some? ==>
      var k := FirstHit(ts, x, y).value;
      r == ts[k := ts[k].(hit := true)]
  {
    match FirstHit(ts, x, y)
    case None => ts
    case Some(k) => ts[k := ts[k].(hit := true)]
  }

  /** The bookkeeping a session keeps between its targets, its shot log and
      its score: targets keep their shape, every shot is well formed, the
      score is the sum of shot points, and hit shots match hit targets. */
  predicate Consistent(ts: seq<Target>, shots: seq<Shot>, score: int)
  {
    && TargetsWellFormed(ts)
    && ShotsWellFormed(shots)
    && score == SumPoints(shots)
    && HitCount(shots) == CountHit(ts)
  }

  /** A resolved shot keeps the session's bookkeeping. */
  lemma ShotKeepsBookkeeping(ts: seq<Target>, shots: seq<Shot>, score: int, x: real, y: real, now: nat)
    requires Consistent(ts, shots, score)
    ensures var s := ResolveShot(ts, x, y, now);
            Consistent(TargetsAfterShot(ts, x, y), shots + [s], score + s.points)
  {
    var s := ResolveShot(ts, x, y, now);
    HitCountAppend(shots, s);
    SumPointsAppend(shots, s);
    if FirstHit(ts, x, y).Some? {
      CountHitFlip(ts, FirstHit(ts, x, y).value);
    }
  }

  /** The record and the list `handleShoot` builds step by step (a miss
      record, upgraded on a hit; the hit target marked by id) are
      `ResolveShot` and `TargetsAfterShot`. */
  lemma ShotOutcome(ts: seq<Target>, x: real, y: real, now: nat)
    requires TargetsWellFormed(ts)
    ensures var miss := Shot("shot-" + NatToString(now), x, y, now, false, None, 0);
            match FirstHit(ts, x, y)
            case None => ResolveShot(ts, x, y, now) == miss
            case Some(k) =>
              && ResolveShot(ts, x, y, now) == miss.(hit := true, targetId := Some(ts[k].id), points := ts[k].points)
              && MarkHit(ts, ts[k].id) == TargetsAfterShot(ts, x, y)
  {
    match FirstHit(ts, x, y)
    case None =>
    case Some(k) => MarkHitOnlyThat(ts, k);
  }

  /** `targets.filter(t => !t.hit && t.id !== hitTarget?.id)`. */
  function Remaining(ts: seq<Target>, hitId: Option<string>): (r: seq<Target>)
    ensures |r| <= |ts|
  {
    if |ts| == 0 then []
    else
      (if !ts[0].hit && Some(ts[0].id) != hitId then [ts[0]] else []) + Remaining(ts[1..], hitId)
  }

  /** The filter keeps exactly the targets still up other than the one just hit. */
  lemma {:induction false} RemainingMembers(ts: seq<Target>, hitId: Option<string>)
    ensures forall t :: t in Remaining(ts, hitId) <==> t in ts && !t.hit && Some(t.id) != hitId
  {
    if |ts| > 0 {
      RemainingMembers(ts[1..], hitId);
      assert ts == [ts[0]] + ts[1..];
    }
  }

  predicate AllHit(ts: seq<Target>)
  {
    forall i :: 0 <= i < |ts| ==> ts[i].hit
  }

  /** The end of the session is scheduled exactly when, after the shot, every
      target has been hit. */
  lemma RemainingEmptyIffAllHit(ts: seq<Target>, x: real, y: real)
    requires TargetsWellFormed(ts)
    ensures var h := FirstHit(ts, x, y);
            var hitId := if h.Some? then Some(ts[h.value].id) else None;
            |Remaining(ts, hitId)| == 0 <==> AllHit(TargetsAfterShot(ts, x, y))
  {
    var h := FirstHit(ts, x, y);
    var after := if h.Some? then ts[h.value := ts[h.value].(hit := true)] else ts;
    var hitId := if h.Some? then Some(ts[h.value].id) else None;
    var rem := Remaining(ts, hitId);
    RemainingMembers(ts, hitId);
    if |rem| == 0 {
      forall i | 0 <= i < |after|
        ensures after[i].hit
      {
        assert ts[i] !in rem;
        if h.Some? && i != h.value && !ts[i].hit {
          TargetIdsUnique(ts, i, h.value);
        }
      }
    } else {
      var t := rem[0];
      assert t in ts && !t.hit && Some(t.id) != hitId;
      var i :| 0 <= i < |ts| && ts[i] == t;
      assert !after[i].hit;
    }
  }

  /** `shots.reduce` of points, the quantity the score tracks. */
  function SumPoints(shots: seq<Shot>): int
  {
    if |shots| == 0 then 0
    else SumPoints(shots[..|shots| - 1]) + shots[|shots| - 1].points
  }

  lemma SumPointsAppend(shots: seq<Shot>, s: Shot)
    ensures SumPoints(shots + [s]) == SumPoints(shots) + s.points
  {
    assert (shots + [s])[..|shots|] == shots;
  }

  /** A hit carries the target's id and its 100 points, a miss neither. */
  predicate ShotWellFormed(s: Shot)
  {
    (s.hit ==> s.targetId.Some? && s.points == TargetPoints) &&
    (!s.hit ==> s.targetId.None? && s.points == 0)
  }

  predicate ShotsWellFormed(shots: seq<Shot>)
  {
    forall i :: 0 <= i < |shots| ==> ShotWellFormed(shots[i])
  }

  /** With every hit worth 100 points, the score is 100 per hit. */
  lemma {:induction false} ScoreIsPointsPerHit(shots: seq<Shot>)
    requires ShotsWellFormed(shots)
    ensures SumPoints(shots) == TargetPoints * HitCount(shots)
  {
    if |shots| > 0 {
      ScoreIsPointsPerHit(shots[..|shots| - 1]);
    }
  }

  lemma RatioAtMostOne(h: real, n: real)
    requires 0.0 <= h <= n && n > 0.0
    ensures 0.0 <= h / n <= 1.0
    ensures h / n == 1.0 <==> h == n
    ensures h / n == 0.0 <==> h == 0.0
  {
    assert h / n * n == h;
  }

  /** `shots.length > 0 ? hits / shots.length * 100 : 0`. */
  function Accuracy(shots: seq<Shot>): (a: real)
    ensures 0.0 <= a <= 100.0
    ensures a == 100.0 <==> |shots| > 0 && HitCount(shots) == |shots|
    ensures a == 0.0 <==> HitCount(shots) == 0
  {
    if |shots| > 0 then
      var ratio := HitCount(shots) as real / |shots| as real;
      RatioAtMostOne(HitCount(shots) as real, |shots| as real);
      ratio * 100.0
    else 0.0
  }

  // ---------------------------------------------------------------------------
  // Motion

  function Min(a: real, b: real): real { if a <= b then a else b }
  function Max(a: real, b: real): real { if a >= b then a else b }

  /** Only moving targets that are still up and have a speed are displaced. */
  predicate Moves(t: Target)
  {
    t.kind == Moving && !t.hit && t.speed != 0.0
  }

  /** One 50 ms motion step of `t`, given the cosine and sine of its heading:
      half a speed unit along the heading, reflected and clamped at the walls. */
  function MoveTarget(t: Target, cos: real, sin: real): (r: Target)
    ensures !Moves(t) ==> r == t
    ensures Moves(t) ==> r == t.(x := r.x, y := r.y, direction := r.direction)
    ensures Moves(t) ==> MinX <= r.x <= MaxX && MinY <= r.y <= MaxY
    ensures Moves(t) ==>
      var nx := t.x + cos * t.speed * 0.5;
      var ny := t.y + sin * t.speed * 0.5;
      && (MinX <= nx <= MaxX ==> r.x == nx)
      && (nx < MinX ==> r.x == MinX) && (nx > MaxX ==> r.x == MaxX)
      && (MinY <= ny <= MaxY ==> r.y == ny)
      && (ny < MinY ==> r.y == MinY) && (ny > MaxY ==> r.y == MaxY)
      && (ny <= MinY || ny >= MaxY ==> r.direction == -t.direction)
      && (!(ny <= MinY || ny >= MaxY) && (nx <= MinX || nx >= MaxX) ==> r.direction == 180.0 - t.direction)
      && (!(ny <= MinY || ny >= MaxY) && !(nx <= MinX || nx >= MaxX) ==> r.direction == t.direction)
  {
    if Moves(t) then
      var newX := t.x + cos * t.speed * 0.5;
      var newY := t.y + sin * t.speed * 0.5;
      var d1 := if newX <= MinX || newX >= MaxX then 180.0 - t.direction else t.direction;
      var d2 := if newY <= MinY || newY >= MaxY then -t.direction else d1;
      t.(x := Max(MinX, Min(MaxX, newX)), y := Max(MinY, Min(MaxY, newY)), direction := d2)
    else t
  }

  /** The motion interval body over the whole list. */
  function MoveAll(ts: seq<Target>, cosDeg: real -> real, sinDeg: real -> real): (r: seq<Target>)
    ensures |r| == |ts|
    ensures forall i :: 0 <= i < |ts| ==> r[i] == MoveTarget(ts[i], cosDeg(ts[i].direction), sinDeg(ts[i].direction))
  {
    seq(|ts|, i requires 0 <= i < |ts| => MoveTarget(ts[i], cosDeg(ts[i].direction), sinDeg(ts[i].direction)))
  }

  /** Motion never changes which targets are hit, nor their ids, sizes or points. */
  lemma MotionKeepsTargetsWellFormed(ts: seq<Target>, cosDeg: real -> real, sinDeg: real -> real)
    requires TargetsWellFormed(ts)
    ensures TargetsWellFormed(MoveAll(ts, cosDeg, sinDeg))
    ensures CountHit(MoveAll(ts, cosDeg, sinDeg)) == CountHit(ts)
    ensures forall i :: 0 <= i < |ts| ==> MoveAll(ts, cosDeg, sinDeg)[i].hit == ts[i].hit
  {
    CountHitSameFlags(MoveAll(ts, cosDeg, sinDeg), ts);
  }

  // ---------------------------------------------------------------------------
  // The session

  class Session {
    const level: TrainingLevel
    const weapon: Weapon
    var started: bool
    var timeLeft: nat
    var targets: seq<Target>
    var shots: seq<Shot>
    var ammo: nat
    var reloading: bool
    var score: int

    /** The bookkeeping every event keeps consistent. */
    ghost predicate Valid()
      reads this
    {
      && ammo <= weapon.ammoCapacity
      && timeLeft <= level.timeLimit
      && (started ==> |targets| == level.targetCount)
      && Consistent(targets, shots, score)
    }

    /** Shots are accepted only in a started session, with a round in the
        magazine and no reload under way. */
    predicate CanShoot()
      reads this
    {
      started && ammo != 0 && !reloading
    }

    /** The initial React state of the range screen. */
    constructor (level: TrainingLevel, weapon: Weapon)
      ensures Valid()
      ensures this.level == level && this.weapon == weapon
      ensures !started && timeLeft == level.timeLimit && targets == [] && shots == []
      ensures ammo == weapon.ammoCapacity && !reloading && score == 0
    {
      this.level := level;
      this.weapon := weapon;
      started := false;
      timeLeft := level.timeLimit;
      targets := [];
      shots := [];
      ammo := weapon.ammoCapacity;
      reloading := false;
      score := 0;
    }

    /** `startGame` with `generateTargets`: resets clock, magazine, score and
        shot log, and spawns `level.targetCount` fresh targets. The reload flag
        is left as it was. */
    method Start(draws: seq<Draw>)
      requires Valid()
      requires |draws| == level.targetCount
      requires forall k :: 0 <= k < |draws| ==> DrawValid(draws[k])
      modifies this
      ensures Valid()
      ensures started && timeLeft == level.timeLimit && ammo == weapon.ammoCapacity
      ensures score == 0 && shots == [] && reloading == old(reloading)
      ensures |targets| == level.targetCount
      ensures forall k :: 0 <= k < |targets| ==> targets[k] == Spawn(level, k, draws[k])
    {
      started := true;
      timeLeft := level.timeLimit;
      ammo := weapon.ammoCapacity;
      score := 0;
      shots := [];
      var newTargets: seq<Target> := [];
      var i := 0;
      while i < level.targetCount
        invariant 0 <= i <= level.targetCount
        invariant |newTargets| == i
        invariant forall k :: 0 <= k < i ==> newTargets[k] == Spawn(level, k, draws[k])
      {
        newTargets := newTargets + [Spawn(level, i, draws[i])];
        i := i + 1;
      }
      targets := newTargets;
      CountHitNone(targets);
    }

    /** The one-second countdown timer firing: one second off the clock while
        time is left, and the session ends once the clock reads zero. */
    method SecondElapsed() returns (result: Option<SessionResult>)
      requires Valid()
      modifies this
      ensures Valid()
      ensures old(started) && old(timeLeft) > 0 ==> timeLeft == old(timeLeft) - 1
      ensures !(old(started) && old(timeLeft) > 0) ==> timeLeft == old(timeLeft)
      ensures result.Some? <==> old(started) && timeLeft == 0
      ensures result.Some? ==> !started && result.value == SessionResult(score, Accuracy(shots), shots)
      ensures result.None? ==> started == old(started)
      ensures targets == old(targets) && shots == old(shots) && score == old(score)
      ensures ammo == old(ammo) && reloading == old(reloading)
    {
      if started && timeLeft > 0 {
        timeLeft := timeLeft - 1;
      }
      if started && timeLeft == 0 {
        var r := End();
        return Some(r);
      }
      return None;
    }

    /** The motion interval firing. `cosDeg` and `sinDeg` give the cosine and
        sine of a heading in degrees. Nothing moves unless the session runs. */
    method MotionTick(cosDeg: real -> real, sinDeg: real -> real)
      requires Valid()
      modifies this
      ensures Valid()
      ensures old(started) ==> targets == MoveAll(old(targets), cosDeg, sinDeg)
      ensures !old(started) ==> targets == old(targets)
      ensures started == old(started) && timeLeft == old(timeLeft) && shots == old(shots)
      ensures score == old(score) && ammo == old(ammo) && reloading == old(reloading)
    {
      if !started {
        return;
      }
      MotionKeepsTargetsWellFormed(targets, cosDeg, sinDeg);
      targets := MoveAll(targets, cosDeg, sinDeg);
    }

    /** `handleShoot` with the crosshair at (x, y) and the clock at `now`.
        Returns whether the end of the session gets scheduled. */
    method Shoot(x: real, y: real, now: nat) returns (endScheduled: bool)
      requires Valid()
      modifies this
      ensures Valid()
      ensures started == old(started) && timeLeft == old(timeLeft) && reloading == old(reloading)
      ensures !old(CanShoot()) ==>
        targets == old(targets) && shots == old(shots) && ammo == old(ammo) &&
        score == old(score) && !endScheduled
      ensures old(CanShoot()) ==>
        var s := ResolveShot(old(targets), x, y, now);
        && ammo == old(ammo) - 1
        && shots == old(shots) + [s]
        && score == old(score) + s.points
        && targets == TargetsAfterShot(old(targets), x, y)
      ensures old(CanShoot()) ==>
        (endScheduled <==> AllHit(targets))
    {
      if !started || ammo == 0 || reloading {
        return false;
      }
      endScheduled := Fire(x, y, now);
    }

    /** The body of `handleShoot` past its guard: record the shot, score and
        mark the target it selects, spend a round and test for the last target. */
    method Fire(x: real, y: real, now: nat) returns (endScheduled: bool)
      requires Valid() && CanShoot()
      modifies this
      ensures Valid()
      ensures started == old(started) && timeLeft == old(timeLeft) && reloading == old(reloading)
      ensures var s := ResolveShot(old(targets), x, y, now);
        && ammo == old(ammo) - 1
        && shots == old(shots) + [s]
        && score == old(score) + s.points
        && targets == TargetsAfterShot(old(targets), x, y)
      ensures endScheduled <==> AllHit(targets)
    {
      var before := targets;
      ShotKeepsBookkeeping(before, shots, score, x, y, now);
      RemainingEmptyIffAllHit(before, x, y);
      ShotOutcome(before, x, y, now);
      var shot := Shot("shot-" + NatToString(now), x, y, now, false, None, 0);
      var hitTarget := FirstHit(targets, x, y);
      var hitId: Option<string> := None;
      if hitTarget.Some? {
        var t := targets[hitTarget.value];
        shot := shot.(hit := true, targetId := Some(t.id), points := t.points);
        score := score + t.points;
        targets := MarkHit(targets, t.id);
        hitId := Some(t.id);
      }
      assert shot == ResolveShot(before, x, y, now) && targets == TargetsAfterShot(before, x, y);
      shots := shots + [shot];
      ammo := ammo - 1;
      endScheduled := |Remaining(before, hitId)| == 0;
    }

    /** `reload`: starts a reload unless one is under way or the magazine is
        full. Returns whether the reload timer was started. */
    method Reload() returns (scheduled: bool)
      requires Valid()
      modifies this
      ensures Valid()
      ensures scheduled <==> !old(reloading) && old(ammo) != weapon.ammoCapacity
      ensures reloading == (old(reloading) || scheduled)
      ensures started == old(started) && timeLeft == old(timeLeft) && targets == old(targets)
      ensures shots == old(shots) && score == old(score) && ammo == old(ammo)
    {
      if reloading || ammo == weapon.ammoCapacity {
        return false;
      }
      reloading := true;
      return true;
    }

    /** The reload timer firing: a full magazine, and the reload is over. */
    method ReloadDone()
      requires Valid()
      modifies this
      ensures Valid()
      ensures ammo == weapon.ammoCapacity && !reloading
      ensures started == old(started) && timeLeft == old(timeLeft) && targets == old(targets)
      ensures shots == old(shots) && score == old(score)
    {
      ammo := weapon.ammoCapacity;
      reloading := false;
    }

    /** `endGame`: stops the session and reports its score, accuracy and shots. */
    method End() returns (result: SessionResult)
      requires Valid()
      modifies this
      ensures Valid()
      ensures !started
      ensures result == SessionResult(score, Accuracy(shots), shots)
      ensures result.score == TargetPoints * HitCount(result.shots)
      ensures timeLeft == old(timeLeft) && targets == old(targets) && shots == old(shots)
      ensures score == old(score) && ammo == old(ammo) && reloading == old(reloading)
    {
      started := false;
      ScoreIsPointsPerHit(shots);
      result := SessionResult(score, Accuracy(shots), shots);
    }

    /** The heads-up counters: hits, accuracy and targets hit
        (`hitsCount`, `accuracy`, `targetsHit`). */
    method Hud() returns (hits: nat, accuracy: real, targetsHit: nat)
      requires Valid()
      ensures hits == HitCount(shots) && accuracy == Accuracy(shots)
      ensures targetsHit == hits && hits <= |shots| && hits <= |targets|
      ensures 0.0 <= accuracy <= 100.0
      ensures score == TargetPoints * hits
    {
      hits := HitCount(shots);
      accuracy := Accuracy(shots);
      targetsHit := CountHit(targets);
      ScoreIsPointsPerHit(shots);
    }
  }
}
