/**
 * `Enemy`: the four-state patrol / chase / attack AI, the choice of patrol point,
 * the facing direction and health. Distances measured by the engine in a frame are
 * parameters; movement and physics are not modelled.
 */
module EnemyAI {
  import opened Wrappers

  datatype EnemyState = Patrol | Chase | Attack | ReturnToPatrol

  /** Which patrol point `currentPatrolTarget` was copied from; `Unset` is its initial zero vector. */
  datatype PatrolTarget = Unset | PointA | PointB

  /**
   * What the enemy measures in one frame: the distance to the player (None when there
   * is no player) and the player's horizontal offset; the distances to patrol points A
   * and B and to the origin (the unset target); the horizontal offsets to A and B.
   */
  datatype Observation = Observation(player: Option<real>, playerX: real,
                                     toA: real, toB: real, toOrigin: real, toAX: real, toBX: real)

  /** The distance to a patrol target in this frame. */
  function DistanceTo(t: PatrolTarget, obs: Observation): real
  {
    match t
    case PointA => obs.toA
    case PointB => obs.toB
    case Unset => obs.toOrigin
  }

  /** `DIRECTION_EPSILON`: horizontal offsets at most this large do not turn the enemy. */
  const DirectionEpsilon: real := 0.05

  /** The inspector defaults. */
  const DefaultAttackRange: real := 1.2
  const DefaultDetectionRange: real := 5.0
  const DefaultLoseTargetRange: real := 7.0
  const DefaultArriveThreshold: real := 0.3
  const DefaultMaxHealth: int := 4
  const DefaultPatrolWaitTime: real := 1.0

  /**
   * The facing `UpdateFacing` leaves: right beyond the epsilon, left beyond minus the
   * epsilon, unchanged in between; a direction of 1 or -1 stays one of them.
   */
  function Faced(facing: int, directionX: real): (f: int)
    ensures (facing == 1 || facing == -1) ==> (f == 1 || f == -1)
    ensures f != facing ==> directionX > DirectionEpsilon || directionX < -DirectionEpsilon
    ensures directionX > DirectionEpsilon ==> f == 1
    ensures directionX < -DirectionEpsilon ==> f == -1
  {
    if directionX > DirectionEpsilon then 1
    else if directionX < -DirectionEpsilon then -1
    else facing
  }

  /** The patrol point `TransitionToReturnToPatrol` heads for: A only when strictly nearer. */
  function NearerPoint(toA: real, toB: real): (p: PatrolTarget)
    ensures p == PointA <==> toA < toB
    ensures p == PointA || p == PointB
  {
    if toA < toB then PointA else PointB
  }

  class Enemy {
    const attackRange: real
    const detectionRange: real
    const loseTargetRange: real
    const arriveThreshold: real
    const maxHealth: int
    const patrolWaitTime: real
    /** Both patrol points are assigned (`ValidatePatrolPoints`). */
    const hasPatrolPoints: bool

    var currentState: EnemyState
    var currentHealth: int
    var currentPatrolTarget: PatrolTarget
    var isMovingToPointB: bool
    var facingDirection: int
    var patrolWaitTimer: real
    /** How many times `Die` has been invoked. */
    var deaths: nat

    /** The facing direction is always right (1) or left (-1). */
    ghost predicate Valid()
      reads this
    {
      facingDirection == 1 || facingDirection == -1
    }

    /** `InitializeEnemy`: full health, facing from the initial x-scale, patrolling towards B. */
    constructor (attackRange: real, detectionRange: real, loseTargetRange: real, arriveThreshold: real,
                 maxHealth: int, patrolWaitTime: real, hasPatrolPoints: bool, initialScaleX: real)
      ensures Valid()
      ensures this.attackRange == attackRange && this.detectionRange == detectionRange
      ensures this.loseTargetRange == loseTargetRange && this.arriveThreshold == arriveThreshold
      ensures this.maxHealth == maxHealth && this.hasPatrolPoints == hasPatrolPoints
      ensures this.patrolWaitTime == patrolWaitTime && patrolWaitTimer == 0.0
      ensures currentState == Patrol && currentHealth == maxHealth && deaths == 0
      ensures facingDirection == if initialScaleX >= 0.0 then 1 else -1
      ensures currentPatrolTarget == (if hasPatrolPoints then PointB else Unset) && isMovingToPointB
    {
      this.attackRange := attackRange;
      this.detectionRange := detectionRange;
      this.loseTargetRange := loseTargetRange;
      this.arriveThreshold := arriveThreshold;
      this.maxHealth := maxHealth;
      this.patrolWaitTime := patrolWaitTime;
      this.hasPatrolPoints := hasPatrolPoints;
      currentHealth := maxHealth;
      facingDirection := if initialScaleX >= 0.0 then 1 else -1;
      currentPatrolTarget := if hasPatrolPoints then PointB else Unset;
      isMovingToPointB := true;
      currentState := Patrol;
      patrolWaitTimer := 0.0;
      deaths := 0;
    }

    /**
     * The state `UpdateState` moves to from `s`, heading for `target`, after observing
     * `obs`. Each state is entered only for its reason: Patrol when the player is gone or
     * the patrol point is reached, Chase within detection range (or when the player
     * steps out of attack range), Attack within attack range, ReturnToPatrol beyond the
     * lose-target range.
     */
    function NextState(s: EnemyState, target: PatrolTarget, obs: Observation): (r: EnemyState)
      ensures obs.player.None? ==> r == Patrol
      ensures s == Patrol && obs.player.Some? ==> (r == Chase <==> obs.player.value <= detectionRange)
      ensures s == Patrol ==> r == Patrol || r == Chase
      ensures r == Attack ==> obs.player.Some? && obs.player.value <= attackRange
      ensures r == Chase && s != Chase ==>
        obs.player.Some? && (obs.player.value <= detectionRange || (s == Attack && obs.player.value > attackRange))
      ensures r == ReturnToPatrol && s != ReturnToPatrol ==> obs.player.Some? && obs.player.value > loseTargetRange
      ensures r == Patrol && s != Patrol ==>
        obs.player.None? || (s == ReturnToPatrol && hasPatrolPoints && DistanceTo(target, obs) <= arriveThreshold)
      ensures s == Chase && obs.player.Some? && obs.player.value <= attackRange ==> r == Attack
      ensures s == Attack && obs.player.Some? && obs.player.value > attackRange ==> r == Chase
      ensures s == ReturnToPatrol && obs.player.Some? && obs.player.value <= detectionRange ==> r == Chase
      ensures s == Chase && obs.player.Some? && obs.player.value > attackRange ==>
        (r == Chase || r == ReturnToPatrol) && (r == ReturnToPatrol <==> obs.player.value > loseTargetRange)
      ensures s == Attack && obs.player.Some? && obs.player.value <= attackRange ==>
        (r == Attack || r == ReturnToPatrol) && (r == ReturnToPatrol <==> obs.player.value > loseTargetRange)
      ensures s == ReturnToPatrol && obs.player.Some? && obs.player.value > detectionRange ==>
        (r == Patrol || r == ReturnToPatrol) &&
        (r == Patrol <==> hasPatrolPoints && DistanceTo(target, obs) <= arriveThreshold)
    {
      match obs.player
      case None => Patrol
      case Some(d) =>
        match s
        case Patrol => if d <= detectionRange then Chase else Patrol
        case Chase =>
          if d <= attackRange then Attack
          else if d > loseTargetRange then ReturnToPatrol
          else Chase
        case Attack =>
          if d > attackRange then Chase
          else if d > loseTargetRange then ReturnToPatrol
          else Attack
        case ReturnToPatrol =>
          if d <= detectionRange then Chase
          else if hasPatrolPoints && DistanceTo(target, obs) <= arriveThreshold then Patrol
          else ReturnToPatrol
    }

    /** The patrol target after `UpdateState`: the nearer point when ReturnToPatrol is entered. */
    function TargetAfter(s: EnemyState, target: PatrolTarget, obs: Observation): PatrolTarget
    {
      if NextState(s, target, obs) == ReturnToPatrol && s != ReturnToPatrol && hasPatrolPoints
      then NearerPoint(obs.toA, obs.toB) else target
    }

    /**
     * The state after `ExecuteCurrentState`: ReturnToPatrol turns into Patrol without
     * patrol points or on arrival, so without patrol points no frame ends in ReturnToPatrol.
     */
    function AfterExecute(s: EnemyState, target: PatrolTarget, obs: Observation): (r: EnemyState)
      ensures !hasPatrolPoints ==> r != ReturnToPatrol
      ensures r != s ==> s == ReturnToPatrol && r == Patrol
      ensures s == ReturnToPatrol && hasPatrolPoints ==> (r == Patrol <==> DistanceTo(target, obs) <= arriveThreshold)
    {
      if s == ReturnToPatrol && (!hasPatrolPoints || DistanceTo(target, obs) <= arriveThreshold) then Patrol else s
    }

    /** `IsChasingPlayer`: chasing or attacking. */
    predicate IsChasingPlayer()
      reads this
    {
      currentState == Chase || currentState == Attack
    }

    method TransitionToPatrol()
      modifies this
      ensures currentState == Patrol && patrolWaitTimer == 0.0
      ensures currentHealth == old(currentHealth) && currentPatrolTarget == old(currentPatrolTarget)
      ensures isMovingToPointB == old(isMovingToPointB) && facingDirection == old(facingDirection)
      ensures deaths == old(deaths)
    {
      currentState := Patrol;
      patrolWaitTimer := 0.0;
    }

    method TransitionToChase()
      modifies this
      ensures currentState == Chase
      ensures currentHealth == old(currentHealth) && currentPatrolTarget == old(currentPatrolTarget)
      ensures isMovingToPointB == old(isMovingToPointB) && facingDirection == old(facingDirection)
      ensures patrolWaitTimer == old(patrolWaitTimer) && deaths == old(deaths)
    {
      currentState := Chase;
    }

    method TransitionToAttack()
      modifies this
      ensures currentState == Attack
      ensures currentHealth == old(currentHealth) && currentPatrolTarget == old(currentPatrolTarget)
      ensures isMovingToPointB == old(isMovingToPointB) && facingDirection == old(facingDirection)
      ensures patrolWaitTimer == old(patrolWaitTimer) && deaths == old(deaths)
    {
      currentState := Attack;
    }

    /** Heads back to the nearer patrol point, B on a tie; keeps the target without patrol points. */
    method TransitionToReturnToPatrol(toA: real, toB: real)
      modifies this
      ensures currentState == ReturnToPatrol
      ensures hasPatrolPoints ==>
        && currentPatrolTarget == NearerPoint(toA, toB)
        && isMovingToPointB == (currentPatrolTarget == PointB)
      ensures !hasPatrolPoints ==>
        currentPatrolTarget == old(currentPatrolTarget) && isMovingToPointB == old(isMovingToPointB)
      ensures currentHealth == old(currentHealth) && facingDirection == old(facingDirection)
      ensures patrolWaitTimer == old(patrolWaitTimer) && deaths == old(deaths)
    {
      currentState := ReturnToPatrol;
      if hasPatrolPoints {
        if toA < toB {
          currentPatrolTarget := PointA;
          isMovingToPointB := false;
        } else {
          currentPatrolTarget := PointB;
          isMovingToPointB := true;
        }
      }
    }

    /** One frame of the state machine: the new state is `NextState` of the old one. */
    method UpdateState(obs: Observation)
      modifies this
      ensures currentState == NextState(old(currentState), old(currentPatrolTarget), obs)
      ensures currentPatrolTarget == TargetAfter(old(currentState), old(currentPatrolTarget), obs)
      ensures currentState == Patrol && old(currentState) != Patrol ==> patrolWaitTimer == 0.0
      ensures !(currentState == Patrol && old(currentState) != Patrol) ==> patrolWaitTimer == old(patrolWaitTimer)
      ensures currentState == ReturnToPatrol && old(currentState) != ReturnToPatrol && hasPatrolPoints ==>
        currentPatrolTarget == NearerPoint(obs.toA, obs.toB) && isMovingToPointB == (currentPatrolTarget == PointB)
      ensures !(currentState == ReturnToPatrol && old(currentState) != ReturnToPatrol && hasPatrolPoints) ==>
        currentPatrolTarget == old(currentPatrolTarget) && isMovingToPointB == old(isMovingToPointB)
      ensures currentHealth == old(currentHealth) && facingDirection == old(facingDirection) && deaths == old(deaths)
      ensures IsChasingPlayer() ==> obs.player.Some?
    {
      if obs.player.None? {
        if currentState != Patrol {
          TransitionToPatrol();
        }
        return;
      }
      var d := obs.player.value;
      match currentState
      case Patrol =>
        if d <= detectionRange {
          TransitionToChase();
        }
      case Chase =>
        if d <= attackRange {
          TransitionToAttack();
        } else if d > loseTargetRange {
          TransitionToReturnToPatrol(obs.toA, obs.toB);
        }
      case Attack =>
        if d > attackRange {
          TransitionToChase();
        } else if d > loseTargetRange {
          TransitionToReturnToPatrol(obs.toA, obs.toB);
        }
      case ReturnToPatrol =>
        if d <= detectionRange {
          TransitionToChase();
        } else if hasPatrolPoints {
          if DistanceTo(currentPatrolTarget, obs) <= arriveThreshold {
            TransitionToPatrol();
          }
        }
    }

    /**
     * Turns right when the offset exceeds the epsilon, left when it is below minus
     * the epsilon, and keeps the direction otherwise.
     */
    method UpdateFacing(directionX: real)
      modifies this
      ensures facingDirection == Faced(old(facingDirection), directionX)
      ensures old(Valid()) ==> Valid()
      ensures currentState == old(currentState) && currentHealth == old(currentHealth)
      ensures currentPatrolTarget == old(currentPatrolTarget) && isMovingToPointB == old(isMovingToPointB)
      ensures patrolWaitTimer == old(patrolWaitTimer) && deaths == old(deaths)
    {
      if directionX > DirectionEpsilon && facingDirection != 1 {
        facingDirection := 1;
      } else if directionX < -DirectionEpsilon && facingDirection != -1 {
        facingDirection := -1;
      }
    }

    /**
     * Turns around to the other patrol point, and faces it when its horizontal offset
     * (`toAX` or `toBX`, measured from the enemy) exceeds the epsilon.
     */
    method SwitchPatrolTarget(toAX: real, toBX: real)
      requires hasPatrolPoints
      modifies this
      ensures isMovingToPointB == !old(isMovingToPointB)
      ensures currentPatrolTarget == if isMovingToPointB then PointB else PointA
      ensures facingDirection == Faced(old(facingDirection), if isMovingToPointB then toBX else toAX)
      ensures old(Valid()) ==> Valid()
      ensures currentState == old(currentState) && currentHealth == old(currentHealth)
      ensures patrolWaitTimer == old(patrolWaitTimer) && deaths == old(deaths)
    {
      isMovingToPointB := !isMovingToPointB;
      currentPatrolTarget := if isMovingToPointB then PointB else PointA;
      var directionX := if isMovingToPointB then toBX else toAX;
      if directionX > DirectionEpsilon || directionX < -DirectionEpsilon {
        UpdateFacing(directionX);
      }
    }

    /** Loses `damageAmount` health; `Die` runs exactly when the health is then at most 0. */
    method TakeDamage(damageAmount: int)
      modifies this
      ensures currentHealth == old(currentHealth) - damageAmount
      ensures deaths == old(deaths) + (if currentHealth <= 0 then 1 else 0)
      ensures currentState == old(currentState) && facingDirection == old(facingDirection)
      ensures currentPatrolTarget == old(currentPatrolTarget) && isMovingToPointB == old(isMovingToPointB)
      ensures patrolWaitTimer == old(patrolWaitTimer)
    {
      currentHealth := currentHealth - damageAmount;
      if currentHealth <= 0 {
        deaths := deaths + 1;
      }
    }

    /**
     * `ExecutePatrol` without the movement: at the patrol point the enemy waits
     * `patrolWaitTime` (the timer grows by the frame time `dt`), then turns to the
     * other point and restarts the timer. Without patrol points or away from the
     * point nothing here changes.
     */
    method ExecutePatrol(obs: Observation, dt: real)
      modifies this
      ensures !hasPatrolPoints || DistanceTo(old(currentPatrolTarget), obs) > arriveThreshold ==> unchanged(this)
      ensures hasPatrolPoints && DistanceTo(old(currentPatrolTarget), obs) <= arriveThreshold ==>
        if old(patrolWaitTimer) < patrolWaitTime then
          && patrolWaitTimer == old(patrolWaitTimer) + dt
          && currentPatrolTarget == old(currentPatrolTarget) && isMovingToPointB == old(isMovingToPointB)
          && facingDirection == old(facingDirection)
        else
          && patrolWaitTimer == 0.0
          && isMovingToPointB == !old(isMovingToPointB)
          && currentPatrolTarget == (if isMovingToPointB then PointB else PointA)
          && facingDirection == Faced(old(facingDirection), if isMovingToPointB then obs.toBX else obs.toAX)
      ensures currentState == old(currentState) && currentHealth == old(currentHealth) && deaths == old(deaths)
      ensures old(Valid()) ==> Valid()
    {
      if !hasPatrolPoints {
        return;
      }
      if DistanceTo(currentPatrolTarget, obs) <= arriveThreshold {
        if patrolWaitTimer < patrolWaitTime {
          patrolWaitTimer := patrolWaitTimer + dt;
        } else {
          SwitchPatrolTarget(obs.toAX, obs.toBX);
          patrolWaitTimer := 0.0;
        }
      }
    }

    /** `ExecuteAttack` without the attack itself: the enemy faces the player. */
    method ExecuteAttack(obs: Observation)
      modifies this
      ensures facingDirection == if obs.player.Some? then Faced(old(facingDirection), obs.playerX) else old(facingDirection)
      ensures currentState == old(currentState) && currentHealth == old(currentHealth) && deaths == old(deaths)
      ensures currentPatrolTarget == old(currentPatrolTarget) && isMovingToPointB == old(isMovingToPointB)
      ensures patrolWaitTimer == old(patrolWaitTimer)
      ensures old(Valid()) ==> Valid()
    {
      if obs.player.Some? {
        UpdateFacing(obs.playerX);
      }
    }

    /** `ExecuteReturnToPatrol` without the movement: Patrol without patrol points or on arrival. */
    method ExecuteReturnToPatrol(obs: Observation)
      modifies this
      ensures !hasPatrolPoints || DistanceTo(old(currentPatrolTarget), obs) <= arriveThreshold ==>
        currentState == Patrol && patrolWaitTimer == 0.0
      ensures hasPatrolPoints && DistanceTo(old(currentPatrolTarget), obs) > arriveThreshold ==> unchanged(this)
      ensures currentHealth == old(currentHealth) && deaths == old(deaths) && facingDirection == old(facingDirection)
      ensures currentPatrolTarget == old(currentPatrolTarget) && isMovingToPointB == old(isMovingToPointB)
    {
      if !hasPatrolPoints {
        TransitionToPatrol();
        return;
      }
      if DistanceTo(currentPatrolTarget, obs) <= arriveThreshold {
        TransitionToPatrol();
      }
    }

    /** `ExecuteCurrentState`: the state's own behaviour for this frame (Chase only moves). */
    method ExecuteCurrentState(obs: Observation, dt: real)
      modifies this
      ensures currentState == AfterExecute(old(currentState), old(currentPatrolTarget), obs)
      ensures currentHealth == old(currentHealth) && deaths == old(deaths)
      ensures old(currentState) == Chase ==> unchanged(this)
      ensures old(currentState) == Attack ==>
        && facingDirection == (if obs.player.Some? then Faced(old(facingDirection), obs.playerX) else old(facingDirection))
        && currentPatrolTarget == old(currentPatrolTarget) && isMovingToPointB == old(isMovingToPointB)
        && patrolWaitTimer == old(patrolWaitTimer)
      ensures old(currentState) == ReturnToPatrol ==>
        && currentPatrolTarget == old(currentPatrolTarget) && isMovingToPointB == old(isMovingToPointB)
        && facingDirection == old(facingDirection)
        && patrolWaitTimer == (if currentState == Patrol then 0.0 else old(patrolWaitTimer))
      ensures old(currentState) == Patrol && (!hasPatrolPoints || DistanceTo(old(currentPatrolTarget), obs) > arriveThreshold) ==>
        unchanged(this)
      ensures old(currentState) == Patrol && hasPatrolPoints && DistanceTo(old(currentPatrolTarget), obs) <= arriveThreshold ==>
        if old(patrolWaitTimer) < patrolWaitTime then
          && patrolWaitTimer == old(patrolWaitTimer) + dt
          && currentPatrolTarget == old(currentPatrolTarget) && isMovingToPointB == old(isMovingToPointB)
          && facingDirection == old(facingDirection)
        else
          && patrolWaitTimer == 0.0
          && isMovingToPointB == !old(isMovingToPointB)
          && currentPatrolTarget == (if isMovingToPointB then PointB else PointA)
          && facingDirection == Faced(old(facingDirection), if isMovingToPointB then obs.toBX else obs.toAX)
      ensures old(Valid()) ==> Valid()
    {
      match currentState
      case Patrol => ExecutePatrol(obs, dt);
      case Chase =>
      case Attack => ExecuteAttack(obs);
      case ReturnToPatrol => ExecuteReturnToPatrol(obs);
    }

    /**
     * `Update`: one frame, `UpdateState` then `ExecuteCurrentState`. The state at the
     * end of the frame is `AfterExecute` of `NextState`.
     */
    method Update(obs: Observation, dt: real)
      modifies this
      ensures currentState ==
        AfterExecute(NextState(old(currentState), old(currentPatrolTarget), obs),
                     TargetAfter(old(currentState), old(currentPatrolTarget), obs), obs)
      ensures currentHealth == old(currentHealth) && deaths == old(deaths)
      ensures old(Valid()) ==> Valid()
      ensures !hasPatrolPoints ==> currentState != ReturnToPatrol
      ensures IsChasingPlayer() ==> obs.player.Some?
    {
      UpdateState(obs);
      ExecuteCurrentState(obs, dt);
    }

    /**
     * From Attack the lose-target branch is only reached within the attack range,
     * so it can fire only when `loseTargetRange < attackRange`.
     */
    lemma AttackLosesTargetOnlyIfRangesInverted(target: PatrolTarget, obs: Observation)
      ensures NextState(Attack, target, obs) == ReturnToPatrol ==> loseTargetRange < attackRange
      ensures NextState(Attack, target, obs) == ReturnToPatrol <==>
        obs.player.Some? && loseTargetRange < obs.player.value <= attackRange
    {
    }

    /** Without a player the enemy is never chasing after a frame; chasing starts only within detection range. */
    lemma ChasingNeedsPlayer(s: EnemyState, target: PatrolTarget, obs: Observation)
      ensures NextState(s, target, obs) in {Chase, Attack} ==> obs.player.Some?
      ensures s !in {Chase, Attack} && NextState(s, target, obs) in {Chase, Attack} ==>
        NextState(s, target, obs) == Chase && obs.player.value <= detectionRange
    {
    }

    /** With the inspector defaults Attack never goes straight back to patrolling. */
    lemma DefaultAttackKeepsTarget(target: PatrolTarget, obs: Observation)
      requires attackRange == DefaultAttackRange && loseTargetRange == DefaultLoseTargetRange
      ensures NextState(Attack, target, obs) != ReturnToPatrol
    {
      AttackLosesTargetOnlyIfRangesInverted(target, obs);
    }
  }
}
