/**
 * The horror enemy: each frame it senses the player and picks Patrol or Chase; each physics
 * step it walks toward the current waypoint or toward the player. The engine's float routines
 * are parameters: distance and angle to the player, the first thing the sight ray hits,
 * vector normalisation, point distance, the heading of a direction and LerpAngle.
 */
module Enemy {
  import opened Geometry

  datatype State = Patrol | Chase

  /** The first collider the sight ray hits, by tag. */
  datatype RayHit = NoHit | Hit(tag: string)

  const PlayerTag: string := "Player"
  /** How close counts as having reached a waypoint. */
  const ArrivalTolerance: real := 0.2

  /** The engine routines the movement step uses. */
  datatype Engine = Engine(
    normalized: Vec2 -> Vec2,          // Vector2.normalized
    distance: (Vec2, Vec2) -> real,    // Vector2.Distance
    heading: Vec2 -> real,             // Atan2(y, x) in degrees, minus 90
    lerpAngle: (real, real, real) -> real)  // Mathf.LerpAngle

  /** The facing after a step along dir: lerped toward its heading, kept for a zero direction. */
  function TurnToward(engine: Engine, rotation: real, dir: Vec2, t: real): real
  {
    if dir == Zero2 then rotation else engine.lerpAngle(rotation, engine.heading(dir), t)
  }

  /** The waypoint index after one patrol step: advance cyclically only on arrival. */
  function NextPatrolIndex(index: nat, count: nat, arrived: bool): (next: nat)
    requires index < count
    ensures next < count
    ensures !arrived ==> next == index
  {
    if arrived then (index + 1) % count else index
  }

  /** The index after k consecutive arrivals. */
  function AfterArrivals(index: nat, count: nat, k: nat): (r: nat)
    requires index < count
    ensures r < count
  {
    if k == 0 then index else NextPatrolIndex(AfterArrivals(index, count, k - 1), count, true)
  }

  lemma {:induction false} MulAtLeast(d: int, n: int)
    requires d >= 1 && n >= 1
    ensures d * n >= n
  {
    if d > 1 {
      MulAtLeast(d - 1, n);
      assert d * n == (d - 1) * n + n;
    }
  }

  /** Euclidean division is unique: a = q * n + r with 0 <= r < n fixes a % n. */
  lemma ModUnique(a: int, n: int, q: int, r: int)
    requires 0 <= r < n && a == q * n + r
    ensures a % n == r
  {
    var q', r' := a / n, a % n;
    assert (q - q') * n == r' - r;
    if q > q' {
      MulAtLeast(q - q', n);
      assert false;
    } else if q < q' {
      MulAtLeast(q' - q, n);
      assert false;
    }
  }

  /** Stepping the remainder by one is stepping the number by one. */
  lemma ModSucc(a: nat, n: nat)
    requires n > 0
    ensures (a % n + 1) % n == (a + 1) % n
  {
    var q, r := a / n, a % n;
    assert a == q * n + r;
    if r + 1 < n {
      ModUnique(a + 1, n, q, r + 1);
      ModUnique(r + 1, n, 0, r + 1);
    } else {
      assert a + 1 == (q + 1) * n + 0;
      ModUnique(a + 1, n, q + 1, 0);
      ModUnique(r + 1, n, 1, 0);
    }
  }

  /** The route is cyclic: k arrivals move the index k places around the route. */
  lemma {:induction false} AfterArrivalsCycles(index: nat, count: nat, k: nat)
    requires index < count
    ensures AfterArrivals(index, count, k) == (index + k) % count
  {
    if k == 0 {
      ModUnique(index, count, 0, index);
    } else {
      var a: nat := index + k - 1;
      AfterArrivalsCycles(index, count, k - 1);
      var prev := AfterArrivals(index, count, k - 1);
      assert prev == a % count;
      assert AfterArrivals(index, count, k) == (prev + 1) % count;
      ModSucc(a, count);
      assert a + 1 == index + k;
    }
  }

  /** After a whole tour of the route the agent is back at the waypoint it started from. */
  lemma FullTourReturns(index: nat, count: nat)
    requires index < count
    ensures AfterArrivals(index, count, count) == index
  {
    AfterArrivalsCycles(index, count, count);
    ModUnique(index + count, count, 1, index);
  }

  class HorrorEnemy {
    const patrolSpeed: real
    const chaseSpeed: real
    const rotationSpeed: real
    const sightRange: real
    const fieldOfView: real
    const patrolPoints: seq<Vec2>

    var currentPatrolIndex: nat
    var currentState: State
    var playerInSight: bool
    var position: Vec2
    var rotation: real

    /** The patrol index is a valid index into the route, or 0 for an empty route. */
    ghost predicate Valid()
      reads this
    {
      if |patrolPoints| == 0 then currentPatrolIndex == 0 else currentPatrolIndex < |patrolPoints|
    }

    /** A new enemy patrols from waypoint 0 and has not seen the player. */
    constructor (patrolSpeed: real, chaseSpeed: real, rotationSpeed: real, sightRange: real,
                 fieldOfView: real, patrolPoints: seq<Vec2>, position: Vec2, rotation: real)
      ensures Valid()
      ensures currentState == State.Patrol && currentPatrolIndex == 0 && !playerInSight
      ensures this.patrolSpeed == patrolSpeed && this.chaseSpeed == chaseSpeed
      ensures this.rotationSpeed == rotationSpeed && this.sightRange == sightRange
      ensures this.fieldOfView == fieldOfView && this.patrolPoints == patrolPoints
      ensures this.position == position && this.rotation == rotation
    {
      this.patrolSpeed := patrolSpeed;
      this.chaseSpeed := chaseSpeed;
      this.rotationSpeed := rotationSpeed;
      this.sightRange := sightRange;
      this.fieldOfView := fieldOfView;
      this.patrolPoints := patrolPoints;
      this.position := position;
      this.rotation := rotation;
      currentPatrolIndex := 0;
      currentState := State.Patrol;
      playerInSight := false;
    }

    /**
     * Sense the player from its distance, the angle between the facing direction and the
     * player, and the first hit of a ray toward the player against walls and the player.
     */
    method SensePlayer(distance: real, angle: real, hit: RayHit)
      modifies this`playerInSight
      ensures playerInSight ==> distance <= sightRange && angle < fieldOfView / 2.0 && hit == Hit(PlayerTag)
      ensures distance <= sightRange && angle < fieldOfView / 2.0 && hit == Hit(PlayerTag) ==> playerInSight
    {
      if distance <= sightRange {
        if angle < fieldOfView / 2.0 {
          if hit.Hit? && hit.tag == PlayerTag {
            playerInSight := true;
            return;
          }
        }
      }
      playerInSight := false;
    }

    /** One frame: sense, then Chase exactly when the player is in sight, else Patrol. */
    method Update(distance: real, angle: real, hit: RayHit)
      modifies this`playerInSight, this`currentState
      ensures playerInSight <==> distance <= sightRange && angle < fieldOfView / 2.0 && hit == Hit(PlayerTag)
      ensures currentState == (if playerInSight then State.Chase else State.Patrol)
    {
      SensePlayer(distance, angle, hit);
      if playerInSight {
        currentState := State.Chase;
      } else {
        currentState := State.Patrol;
      }
    }

    /** Move toward target at speed for one step; turn toward the motion unless it is zero. */
    method MoveTowards(engine: Engine, target: Vec2, speed: real, dt: real)
      modifies this`position, this`rotation
      ensures var dir := engine.normalized(Sub(target, old(position)));
        && position == Add(old(position), Scale(dir, speed * dt))
        && rotation == TurnToward(engine, old(rotation), dir, dt * rotationSpeed)
    {
      var moveDir := engine.normalized(Sub(target, position));
      position := Add(position, Scale(moveDir, speed * dt));
      if moveDir != Zero2 {
        var angle := engine.heading(moveDir);
        rotation := engine.lerpAngle(rotation, angle, dt * rotationSpeed);
      }
    }

    /**
     * Walk toward the current waypoint at patrol speed and advance the index when it was
     * within the tolerance. The arrival test reads the position from before this step's
     * move, because a kinematic body's MovePosition only takes effect in the physics update.
     */
    method Patrol(engine: Engine, dt: real)
      requires Valid()
      modifies this`position, this`rotation, this`currentPatrolIndex
      ensures Valid()
      ensures |patrolPoints| == 0 ==> position == old(position) && rotation == old(rotation)
      ensures |patrolPoints| == 0 ==> currentPatrolIndex == old(currentPatrolIndex)
      ensures |patrolPoints| > 0 ==>
        var target := patrolPoints[old(currentPatrolIndex)];
        var dir := engine.normalized(Sub(target, old(position)));
        && position == Add(old(position), Scale(dir, patrolSpeed * dt))
        && rotation == TurnToward(engine, old(rotation), dir, dt * rotationSpeed)
        && currentPatrolIndex == NextPatrolIndex(old(currentPatrolIndex), |patrolPoints|,
                                                 engine.distance(old(position), target) < ArrivalTolerance)
    {
      if |patrolPoints| == 0 {
        return;
      }
      var targetPoint := patrolPoints[currentPatrolIndex];
      var before := position;
      MoveTowards(engine, targetPoint, patrolSpeed, dt);
      if engine.distance(before, targetPoint) < ArrivalTolerance {
        currentPatrolIndex := (currentPatrolIndex + 1) % |patrolPoints|;
      }
    }

    /** Walk straight at the player's live position at chase speed. */
    method Chase(engine: Engine, playerPosition: Vec2, dt: real)
      modifies this`position, this`rotation
      ensures var dir := engine.normalized(Sub(playerPosition, old(position)));
        && position == Add(old(position), Scale(dir, chaseSpeed * dt))
        && rotation == TurnToward(engine, old(rotation), dir, dt * rotationSpeed)
    {
      MoveTowards(engine, playerPosition, chaseSpeed, dt);
    }

    /** One physics step, dispatched on the state. */
    method FixedUpdate(engine: Engine, playerPosition: Vec2, dt: real)
      requires Valid()
      modifies this`position, this`rotation, this`currentPatrolIndex
      ensures Valid()
      ensures currentState == State.Chase ==>
        var dir := engine.normalized(Sub(playerPosition, old(position)));
        && currentPatrolIndex == old(currentPatrolIndex)
        && position == Add(old(position), Scale(dir, chaseSpeed * dt))
        && rotation == TurnToward(engine, old(rotation), dir, dt * rotationSpeed)
      ensures currentState == State.Patrol && |patrolPoints| > 0 ==>
        var target := patrolPoints[old(currentPatrolIndex)];
        var dir := engine.normalized(Sub(target, old(position)));
        && position == Add(old(position), Scale(dir, patrolSpeed * dt))
        && rotation == TurnToward(engine, old(rotation), dir, dt * rotationSpeed)
        && currentPatrolIndex == NextPatrolIndex(old(currentPatrolIndex), |patrolPoints|,
                                                 engine.distance(old(position), target) < ArrivalTolerance)
      ensures currentState == State.Patrol && |patrolPoints| == 0 ==>
        position == old(position) && rotation == old(rotation) && currentPatrolIndex == old(currentPatrolIndex)
    {
      match currentState {
        case Patrol => Patrol(engine, dt);
        case Chase => Chase(engine, playerPosition, dt);
      }
    }
  }
}
