/**
 * `ColorMagazine`: a bounded counter of ink bullets with a colour and a name.
 * The C# events it raises are recorded, in order, in the `events` log.
 */
module Magazine {
  import opened Colors

  /** The events of `ColorMagazine`, one constructor per C# event. */
  datatype MagazineEvent =
    | BulletAdded
    | BulletRemoved
    | MagazineFull
    | MagazineEmpty
    | MagazineCleared
    | MagazineColorChanged

  /** The capacity a magazine gets when none is given. */
  const DefaultCapacity: int := 6

  class ColorMagazine {
    var capacity: int
    var color: Color
    var current: int
    var name: string
    /** Every event raised so far, oldest first. */
    var events: seq<MagazineEvent>

    /** The counter invariant the magazine keeps as long as its capacity is not negative. */
    ghost predicate Valid()
      reads this
    {
      0 <= current <= capacity
    }

    /** Under the invariant, full means exactly at capacity. */
    predicate IsFull()
      reads this
      ensures Valid() ==> (IsFull() <==> current == capacity)
    {
      current >= capacity
    }

    /** Under the invariant, empty means exactly no bullets. */
    predicate IsEmpty()
      reads this
      ensures Valid() ==> (IsEmpty() <==> current == 0)
    {
      current <= 0
    }

    /** A new magazine is empty and has the clear colour. */
    constructor (name: string, capacity: int)
      ensures this.name == name && this.capacity == capacity
      ensures current == 0 && color == Clear && events == []
      ensures capacity >= 0 ==> Valid()
    {
      this.name := name;
      this.capacity := capacity;
      current := 0;
      color := Clear;
      events := [];
    }

    /**
     * Refused (false, nothing changes) on a full magazine; otherwise one more
     * bullet, `BulletAdded`, and `MagazineFull` exactly when the count reaches capacity.
     */
    method AddBullet() returns (ok: bool)
      modifies this
      ensures ok == !old(IsFull())
      ensures !ok ==> unchanged(this)
      ensures ok ==> current == old(current) + 1
      ensures ok ==> events == old(events) + [BulletAdded] + (if current >= capacity then [MagazineFull] else [])
      ensures capacity == old(capacity) && color == old(color) && name == old(name)
      ensures old(Valid()) ==> Valid()
    {
      if IsFull() {
        return false;
      }
      current := current + 1;
      events := events + [BulletAdded];
      if IsFull() {
        events := events + [MagazineFull];
      }
      return true;
    }

    /**
     * Refused (false, nothing changes) on an empty magazine; otherwise one bullet
     * fewer, `BulletRemoved`, and `MagazineEmpty` exactly when the count reaches 0.
     */
    method RemoveBullet() returns (ok: bool)
      modifies this
      ensures ok == !old(IsEmpty())
      ensures !ok ==> unchanged(this)
      ensures ok ==> current == old(current) - 1
      ensures ok ==> events == old(events) + [BulletRemoved] + (if current <= 0 then [MagazineEmpty] else [])
      ensures capacity == old(capacity) && color == old(color) && name == old(name)
      ensures old(Valid()) ==> Valid()
    {
      if IsEmpty() {
        return false;
      }
      current := current - 1;
      events := events + [BulletRemoved];
      if IsEmpty() {
        events := events + [MagazineEmpty];
      }
      return true;
    }

    /** Empties the magazine; the colour is kept. */
    method ClearMagazine()
      modifies this
      ensures current == 0
      ensures events == old(events) + [MagazineCleared]
      ensures capacity == old(capacity) && color == old(color) && name == old(name)
      ensures old(capacity) >= 0 ==> Valid()
    {
      current := 0;
      events := events + [MagazineCleared];
    }

    method SetMagazineColor(c: Color)
      modifies this
      ensures color == c
      ensures events == old(events) + [MagazineColorChanged]
      ensures capacity == old(capacity) && current == old(current) && name == old(name)
    {
      color := c;
      events := events + [MagazineColorChanged];
    }

    method SetMagazineName(n: string)
      modifies this
      ensures name == n
      ensures capacity == old(capacity) && current == old(current) && color == old(color)
      ensures events == old(events)
    {
      name := n;
    }

    /** The count is clamped down to the new capacity and never raised; no event. */
    method SetMagazineCapacity(c: int)
      modifies this
      ensures capacity == c
      ensures current == if old(current) > c then c else old(current)
      ensures current <= old(current)
      ensures color == old(color) && name == old(name) && events == old(events)
      ensures c >= 0 && old(current) >= 0 ==> Valid()
    {
      capacity := c;
      if current > capacity {
        current := capacity;
      }
    }

    /** Fills the magazine to capacity; `MagazineFull` only when bullets were actually added. */
    method FillMagazine()
      modifies this
      ensures current == capacity && IsFull()
      ensures events == old(events) + (if old(current) < old(capacity) then [MagazineFull] else [])
      ensures capacity == old(capacity) && color == old(color) && name == old(name)
      ensures capacity >= 0 ==> Valid()
    {
      var bulletsToAdd := capacity - current;
      current := capacity;
      if bulletsToAdd > 0 {
        events := events + [MagazineFull];
      }
    }
  }
}
