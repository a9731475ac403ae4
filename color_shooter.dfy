/**
 * `ColorShooter`: the firing rule. A shot needs a selected non-empty magazine and a
 * bullet pool, and is rate limited. The clock (`Time.time`), whether the pool exists
 * and whether the pool hands out a bullet are parameters; the requests made to the
 * pool are recorded in `shots`.
 */
module Shooter {
  import opened Wrappers
  import opened Colors
  import opened Magazine
  import opened Bag

  /** The events of `ColorShooter`. */
  datatype ShooterEvent = ShootAttempted | ShootFailed | BulletFired

  /** The messages of `GetShootFailReason`, in its order. */
  datatype FailReason = NoColorBag | NoMagazineSelected | MagazineIsEmpty | PoolNotFound | UnknownReason

  /** A request to the bullet pool: bullet colour and horizontal direction (1 or -1). */
  datatype Shot = Shot(color: Color, direction: int)

  /** The default `fireRate`: seconds between two shots. */
  const DefaultFireRate: real := 0.2

  class ColorShooter {
    var bag: ColorBag?
    /** The player's `localScale.x`, when a player controller is attached. */
    var playerScaleX: Option<real>
    var fireRate: real
    var lastFireTime: real
    var events: seq<ShooterEvent>
    /** Every request made to the bullet pool, oldest first. */
    var shots: seq<Shot>

    /** The shooter and the bag's magazines: what a shot may change. */
    function Footprint(): set<object>
      reads this
    {
      {this} + if bag == null then {} else {bag, bag.red, bag.green, bag.blue, bag.mix}
    }

    constructor (bag: ColorBag?, playerScaleX: Option<real>)
      ensures this.bag == bag && this.playerScaleX == playerScaleX
      ensures fireRate == DefaultFireRate && lastFireTime == 0.0 && events == [] && shots == []
    {
      this.bag := bag;
      this.playerScaleX := playerScaleX;
      fireRate := DefaultFireRate;
      lastFireTime := 0.0;
      events := [];
      shots := [];
    }

    /** A shot is possible when a bag and a selected magazine exist, it is not empty and the pool exists. */
    predicate CanShootInternal(poolExists: bool)
      reads Footprint()
      ensures CanShootInternal(poolExists) ==>
        poolExists && bag != null && bag.Current() in bag.AllMagazines() && bag.Current().current > 0
    {
      bag != null && bag.Current() != null && !bag.Current().IsEmpty() && poolExists
    }

    /** The first of the shot conditions that fails; `UnknownReason` exactly when none fails. */
    function GetShootFailReason(poolExists: bool): (reason: FailReason)
      reads Footprint()
      ensures reason == UnknownReason <==> CanShootInternal(poolExists)
      ensures reason == NoColorBag <==> bag == null
      ensures reason == NoMagazineSelected <==> bag != null && bag.Current() == null
      ensures reason == MagazineIsEmpty <==> bag != null && bag.Current() != null && bag.Current().IsEmpty()
      ensures reason == PoolNotFound <==>
        bag != null && bag.Current() != null && !bag.Current().IsEmpty() && !poolExists
    {
      if bag == null then NoColorBag
      else if bag.Current() == null then NoMagazineSelected
      else if bag.Current().IsEmpty() then MagazineIsEmpty
      else if !poolExists then PoolNotFound
      else UnknownReason
    }

    /** At least `fireRate` seconds have passed since the last shot. */
    predicate CheckFireRate(now: real)
      reads this
      ensures fireRate >= 0.0 && CheckFireRate(now) ==> now >= lastFireTime
    {
      now - lastFireTime >= fireRate
    }

    /** 1 when the player faces right (x-scale >= 0) or there is no player, -1 otherwise. */
    function GetFireDirectionInt(): (direction: int)
      reads this
      ensures direction == 1 || direction == -1
      ensures direction == 1 <==> playerScaleX.None? || playerScaleX.value >= 0.0
    {
      match playerScaleX
      case None => 1
      case Some(scaleX) => if scaleX >= 0.0 then 1 else -1
    }

    /**
     * Asks the pool for a bullet of the current magazine's colour. Only when it
     * gets one is a bullet consumed and the fire time updated.
     */
    method PerformShoot(now: real, poolFires: bool) returns (ok: bool)
      requires bag != null && bag.Current() != null
      modifies Footprint()
      ensures ok == poolFires
      ensures bag == old(bag) && playerScaleX == old(playerScaleX) && fireRate == old(fireRate)
      ensures shots == old(shots) + [Shot(old(bag.Current().color), GetFireDirectionInt())]
      ensures events == old(events) + [if ok then BulletFired else ShootFailed]
      ensures lastFireTime == if ok then now else old(lastFireTime)
      ensures !ok ==> unchanged(bag, bag.red, bag.green, bag.blue, bag.mix)
      ensures ok ==> unchanged(bag) && unchanged(set m | m in bag.AllMagazines() && m != bag.Current())
      ensures ok && old(bag.Current().IsEmpty()) ==> unchanged(bag.Current())
      ensures ok && !old(bag.Current().IsEmpty()) ==>
        && bag.Current().current == old(bag.Current().current) - 1
        && bag.Current().events == old(bag.Current().events) + [BulletRemoved]
           + (if bag.Current().current <= 0 then [MagazineEmpty] else [])
        && bag.Current().capacity == old(bag.Current().capacity)
        && bag.Current().color == old(bag.Current().color)
        && bag.Current().name == old(bag.Current().name)
    {
      var magazine := bag.Current();
      var direction := GetFireDirectionInt();
      shots := shots + [Shot(magazine.color, direction)];
      if poolFires {
        var removed := magazine.RemoveBullet();
        lastFireTime := now;
        events := events + [BulletFired];
        return true;
      } else {
        events := events + [ShootFailed];
        return false;
      }
    }

    /**
     * Refused, with no bullet consumed and the fire time kept, when a shot condition
     * fails or fewer than `fireRate` seconds have passed; otherwise exactly one bullet
     * leaves the current magazine when the pool hands out a bullet.
     */
    method TryShoot(now: real, poolExists: bool, poolFires: bool) returns (ok: bool)
      modifies Footprint()
      ensures ok <==> old(CanShootInternal(poolExists)) && old(CheckFireRate(now)) && poolFires
      ensures bag == old(bag) && playerScaleX == old(playerScaleX) && fireRate == old(fireRate)
      ensures lastFireTime == if ok then now else old(lastFireTime)
      ensures events == old(events) + [ShootAttempted] +
        (if !old(CanShootInternal(poolExists)) then [ShootFailed]
         else if !old(CheckFireRate(now)) then []
         else if poolFires then [BulletFired] else [ShootFailed])
      ensures shots == old(shots) +
        (if old(CanShootInternal(poolExists)) && old(CheckFireRate(now))
         then [Shot(old(bag.Current().color), GetFireDirectionInt())] else [])
      ensures !ok && bag != null ==> unchanged(bag, bag.red, bag.green, bag.blue, bag.mix)
      ensures ok ==>
        && unchanged(bag) && unchanged(set m | m in bag.AllMagazines() && m != bag.Current())
        && bag.Current().current == old(bag.Current().current) - 1
        && bag.Current().events == old(bag.Current().events) + [BulletRemoved]
           + (if bag.Current().current <= 0 then [MagazineEmpty] else [])
        && bag.Current().capacity == old(bag.Current().capacity)
        && bag.Current().color == old(bag.Current().color)
    {
      events := events + [ShootAttempted];
      if !CanShootInternal(poolExists) {
        events := events + [ShootFailed];
        return false;
      }
      if !CheckFireRate(now) {
        return false;
      }
      ok := PerformShoot(now, poolFires);
    }

    /** `TryShoot` without the fire-rate check and without `ShootAttempted`. */
    method ForceShoot(now: real, poolExists: bool, poolFires: bool) returns (ok: bool)
      modifies Footprint()
      ensures ok <==> old(CanShootInternal(poolExists)) && poolFires
      ensures bag == old(bag) && playerScaleX == old(playerScaleX) && fireRate == old(fireRate)
      ensures lastFireTime == if ok then now else old(lastFireTime)
      ensures events == old(events) +
        (if !old(CanShootInternal(poolExists)) then [ShootFailed]
         else if poolFires then [BulletFired] else [ShootFailed])
      ensures shots == old(shots) +
        (if old(CanShootInternal(poolExists)) then [Shot(old(bag.Current().color), GetFireDirectionInt())] else [])
      ensures !ok && bag != null ==> unchanged(bag, bag.red, bag.green, bag.blue, bag.mix)
      ensures ok ==>
        && unchanged(bag) && unchanged(set m | m in bag.AllMagazines() && m != bag.Current())
        && bag.Current().current == old(bag.Current().current) - 1
        && bag.Current().events == old(bag.Current().events) + [BulletRemoved]
           + (if bag.Current().current <= 0 then [MagazineEmpty] else [])
        && bag.Current().capacity == old(bag.Current().capacity)
        && bag.Current().color == old(bag.Current().color)
    {
      if !CanShootInternal(poolExists) {
        events := events + [ShootFailed];
        return false;
      }
      ok := PerformShoot(now, poolFires);
    }

    /** Stores `max(0, rate)`: the interval is never negative. */
    method SetFireRate(rate: real)
      modifies this
      ensures fireRate >= 0.0
      ensures fireRate == if rate >= 0.0 then rate else 0.0
      ensures bag == old(bag) && playerScaleX == old(playerScaleX) && lastFireTime == old(lastFireTime)
      ensures events == old(events) && shots == old(shots)
    {
      fireRate := if rate >= 0.0 then rate else 0.0;
    }
  }
}
