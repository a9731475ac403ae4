/**
 * `ColorBag`: the four-magazine inventory (red, green, blue and mix), the
 * current selection, the two-phase mix protocol and the routing of picked
 * colours to the base magazines.
 */
module Bag {
  import opened Colors
  import opened Magazine

  /** `ColorBag.MagazineType`. */
  datatype MagazineType = RedMagazine | GreenMagazine | BlueMagazine | MixMagazine

  /** The events of `ColorBag` that the bag raises itself, in order. */
  datatype BagEvent =
    | ColorsMixed(first: ColorMagazine, second: ColorMagazine, mixed: Color)
    | CurrentMagazineChanged(selected: ColorMagazine?)
    | MixModeChanged(on: bool)
    | FirstMixMagazineSelected(first: ColorMagazine)

  /** `AllMagazines.Length`. */
  const MagazineCount: int := 4

  class ColorBag {
    const red: ColorMagazine
    const green: ColorMagazine
    const blue: ColorMagazine
    const mix: ColorMagazine
    /** The inspector's base colours; the code never changes them. */
    const baseRed: Color
    const baseGreen: Color
    const baseBlue: Color

    var currentIndex: int
    var isMixMode: bool
    var firstMix: ColorMagazine?
    var events: seq<BagEvent>

    /** `AllMagazines`, in index order. */
    function AllMagazines(): (all: seq<ColorMagazine>)
      ensures |all| == MagazineCount
    {
      [red, green, blue, mix]
    }

    /** The four magazines are four different objects. */
    predicate Distinct()
    {
      red != green && red != blue && red != mix && green != blue && green != mix && blue != mix
    }

    predicate IsBase(m: ColorMagazine?)
    {
      m == red || m == green || m == blue
    }

    /** Mix mode is on exactly when a first magazine is chosen, and that one is a base magazine. */
    ghost predicate Valid()
      reads this
    {
      && Distinct()
      && (isMixMode <==> firstMix != null)
      && (firstMix != null ==> IsBase(firstMix))
    }

    /** 0, 1, 2, 3 name red, green, blue, mix; any other index names no magazine. */
    function GetMagazineByIndex(index: int): (m: ColorMagazine?)
      ensures m == null <==> !(0 <= index < MagazineCount)
      ensures 0 <= index < MagazineCount ==> m == AllMagazines()[index]
    {
      match index
      case 0 => red
      case 1 => green
      case 2 => blue
      case 3 => mix
      case _ => null
    }

    /** The index of the first of the four magazines that is `m`, or -1 when it is none of them. */
    function GetMagazineIndex(m: ColorMagazine?): (index: int)
      ensures -1 <= index < MagazineCount
      ensures index == -1 <==> m !in AllMagazines()
      ensures index != -1 ==> AllMagazines()[index] == m
      ensures forall j :: 0 <= j < index ==> AllMagazines()[j] != m
    {
      if m == red then 0
      else if m == green then 1
      else if m == blue then 2
      else if m == mix then 3
      else -1
    }

    /** `CurrentColorMagazine`. */
    function Current(): (m: ColorMagazine?)
      reads this
      ensures m == null <==> !(0 <= currentIndex < MagazineCount)
      ensures m != null ==> m in AllMagazines() && m == AllMagazines()[currentIndex]
    {
      GetMagazineByIndex(currentIndex)
    }

    /** `GetMagazine(type)`: the magazine of each type. */
    function GetMagazine(t: MagazineType): (m: ColorMagazine)
      ensures m == GetMagazineByIndex(TypeIndex(t))
    {
      match t
      case RedMagazine => red
      case GreenMagazine => green
      case BlueMagazine => blue
      case MixMagazine => mix
    }

    /**
     * The magazine a picked colour goes to: the first base magazine, in the order
     * red, green, blue, whose base colour is similar to it; never the mix magazine.
     */
    function GetMagazineForColor(c: Color): (m: ColorMagazine?)
      ensures m == null || IsBase(m)
      ensures Distinct() ==> m != mix
      ensures m == null <==> !Similar(c, baseRed) && !Similar(c, baseGreen) && !Similar(c, baseBlue)
      ensures m == red <== Similar(c, baseRed)
      ensures m == green <== !Similar(c, baseRed) && Similar(c, baseGreen)
      ensures m == blue <== !Similar(c, baseRed) && !Similar(c, baseGreen) && Similar(c, baseBlue)
    {
      if Similar(c, baseRed) then red
      else if Similar(c, baseGreen) then green
      else if Similar(c, baseBlue) then blue
      else null
    }

    /** Two magazines can be mixed when both exist and are full and the mix magazine is empty. */
    predicate CanMix(m1: ColorMagazine?, m2: ColorMagazine?)
      reads m1, m2, mix
      ensures CanMix(m1, m2) ==> m1 != null && m2 != null
      ensures CanMix(m1, m2) && m1.Valid() && m2.Valid() && mix.Valid() ==>
        m1.current == m1.capacity && m2.current == m2.capacity && mix.current == 0
    {
      m1 != null && m2 != null && m1.IsFull() && m2.IsFull() && mix.IsEmpty()
    }

    /** `Start` with unassigned magazines: four new six-bullet magazines, base colours set, index 0. */
    constructor (baseRed: Color, baseGreen: Color, baseBlue: Color)
      ensures Valid() && fresh(red) && fresh(green) && fresh(blue) && fresh(mix)
      ensures this.baseRed == baseRed && this.baseGreen == baseGreen && this.baseBlue == baseBlue
      ensures currentIndex == 0 && !isMixMode && firstMix == null && events == []
      ensures forall m :: m in AllMagazines() ==> m.current == 0 && m.capacity == DefaultCapacity && m.Valid()
      ensures red.color == baseRed && green.color == baseGreen && blue.color == baseBlue && mix.color == Clear
      ensures red.name == "Red Magazine" && green.name == "Green Magazine"
      ensures blue.name == "Blue Magazine" && mix.name == "Mix Magazine"
      ensures red.events == [MagazineColorChanged] && green.events == [MagazineColorChanged]
      ensures blue.events == [MagazineColorChanged] && mix.events == []
    {
      red := new ColorMagazine("Red Magazine", DefaultCapacity);
      green := new ColorMagazine("Green Magazine", DefaultCapacity);
      blue := new ColorMagazine("Blue Magazine", DefaultCapacity);
      mix := new ColorMagazine("Mix Magazine", DefaultCapacity);
      this.baseRed := baseRed;
      this.baseGreen := baseGreen;
      this.baseBlue := baseBlue;
      currentIndex := 0;
      isMixMode := false;
      firstMix := null;
      events := [];
      new;
      red.SetMagazineColor(baseRed);
      green.SetMagazineColor(baseGreen);
      blue.SetMagazineColor(baseBlue);
      var ok := SetCurrentMagazine(0);
    }

    /**
     * An index outside [0, 4) is refused and nothing changes; a valid one is stored, and
     * `CurrentMagazineChanged` is raised when it names a different magazine than before.
     */
    method SetCurrentMagazine(index: int) returns (ok: bool)
      modifies this
      ensures ok <==> 0 <= index < MagazineCount
      ensures !ok ==> unchanged(this)
      ensures ok ==> currentIndex == index
      ensures ok ==> (events == old(events) +
        if old(Current()) != Current() then [CurrentMagazineChanged(Current())] else [])
      ensures isMixMode == old(isMixMode) && firstMix == old(firstMix)
      ensures old(Valid()) ==> Valid()
    {
      if index < 0 || index >= MagazineCount {
        return false;
      }
      var previous := Current();
      currentIndex := index;
      var selected := Current();
      if previous != selected {
        events := events + [CurrentMagazineChanged(selected)];
      }
      return true;
    }

    /** The guard of `EnterMixMode`: a full base magazine is selected and the mix magazine is empty. */
    predicate CanEnterMixMode()
      reads this, red, green, blue, mix
    {
      IsBase(Current()) && Current().IsFull() && mix.IsEmpty()
    }

    /**
     * Enters mix mode with the current magazine as the first one when the guard holds;
     * otherwise nothing changes.
     */
    method EnterMixMode()
      requires Valid()
      modifies this
      ensures Valid()
      ensures old(CanEnterMixMode()) ==>
        && isMixMode && firstMix == old(Current())
        && events == old(events) + [MixModeChanged(true), FirstMixMagazineSelected(old(Current()))]
        && currentIndex == old(currentIndex)
      ensures !old(CanEnterMixMode()) ==> unchanged(this)
    {
      var currentMag := Current();
      if !IsBase(currentMag) {
        return;
      }
      if !currentMag.IsFull() {
        return;
      }
      if !mix.IsEmpty() {
        return;
      }
      isMixMode := true;
      firstMix := currentMag;
      events := events + [MixModeChanged(true), FirstMixMagazineSelected(currentMag)];
    }

    /** Always leaves mix mode with no first magazine. */
    method ExitMixMode()
      requires Valid()
      modifies this
      ensures Valid()
      ensures !isMixMode && firstMix == null
      ensures events == old(events) + [MixModeChanged(false)]
      ensures currentIndex == old(currentIndex)
    {
      isMixMode := false;
      firstMix := null;
      events := events + [MixModeChanged(false)];
    }

    /**
     * Mixes `m1` and `m2` into the mix magazine when `CanMix` holds: both sources end
     * empty, the mix magazine full with the mixed colour. Otherwise nothing changes.
     */
    method MixColors(m1: ColorMagazine?, m2: ColorMagazine?) returns (ok: bool)
      modifies this, m1, m2, mix
      ensures ok == old(CanMix(m1, m2))
      ensures !ok ==> unchanged(this, mix)
      ensures !ok && m1 != null ==> unchanged(m1)
      ensures !ok && m2 != null ==> unchanged(m2)
      ensures ok ==> m1 != null && m2 != null
      ensures ok ==> events == old(events) + [ColorsMixed(m1, m2, Mix(old(m1.color), old(m2.color)))]
      ensures ok ==> mix.current == mix.capacity && mix.color == Mix(old(m1.color), old(m2.color))
      ensures ok && m1 != mix ==> m1.current == 0 && m1.color == old(m1.color)
      ensures ok && m2 != mix ==> m2.current == 0 && m2.color == old(m2.color)
      ensures ok ==> m1.capacity == old(m1.capacity) && m2.capacity == old(m2.capacity)
      ensures ok ==> mix.capacity == old(mix.capacity)
      ensures ok ==> m1.name == old(m1.name) && m2.name == old(m2.name) && mix.name == old(mix.name)
      ensures ok && m1 != m2 && m1 != mix ==> m1.events == old(m1.events) + [MagazineCleared]
      ensures ok && m1 != m2 && m2 != mix ==> m2.events == old(m2.events) + [MagazineCleared]
      ensures ok && m1 == m2 && m1 != mix ==> m1.events == old(m1.events) + [MagazineCleared, MagazineCleared]
      ensures ok && m1 != mix && m2 != mix ==> (mix.events == old(mix.events) +
        [MagazineCleared, MagazineColorChanged] + if mix.capacity > 0 then [MagazineFull] else [])
      ensures currentIndex == old(currentIndex) && isMixMode == old(isMixMode) && firstMix == old(firstMix)
    {
      if !CanMix(m1, m2) {
        return false;
      }
      var mixed := Mix(m1.color, m2.color);
      m1.ClearMagazine();
      m2.ClearMagazine();
      mix.ClearMagazine();
      mix.SetMagazineColor(mixed);
      mix.FillMagazine();
      events := events + [ColorsMixed(m1, m2, mixed)];
      return true;
    }
    /** The guard of the second phase: in mix mode, a base magazine other than the first is selected. */
    predicate CanTryMix()
      reads this
    {
      isMixMode && firstMix != null && Current() != null && Current() != firstMix && IsBase(Current())
    }

    /**
     * The second phase of the mix protocol. Fails with no change unless `CanTryMix`
     * holds; then mixes the first magazine with the current one, and leaves mix mode
     * only when the mix succeeds (a failed mix keeps mix mode on).
     */
    method TryMixWithCurrentMagazine() returns (ok: bool)
      requires Valid()
      modifies this, red, green, blue, mix
      ensures Valid()
      ensures ok ==> old(CanTryMix())
      ensures old(CanTryMix()) ==> ok == old(CanMix(firstMix, Current()))
      ensures !ok ==> unchanged(this, red, green, blue, mix)
      ensures ok ==> !isMixMode && firstMix == null && currentIndex == old(currentIndex)
      ensures ok ==> (events == old(events) +
        [ColorsMixed(old(firstMix), old(Current()), Mix(old(firstMix.color), old(Current().color))),
         MixModeChanged(false)])
      ensures ok ==> old(firstMix).current == 0 && old(Current()).current == 0
      ensures ok ==> mix.current == mix.capacity && mix.color == Mix(old(firstMix.color), old(Current().color))
      ensures ok ==>
        && old(firstMix).events == old(firstMix.events) + [MagazineCleared]
        && old(Current()).events == old(Current().events) + [MagazineCleared]
        && mix.events == old(mix.events) + [MagazineCleared, MagazineColorChanged]
           + (if mix.capacity > 0 then [MagazineFull] else [])
      ensures ok ==> forall m ::
        m in AllMagazines() && m != old(firstMix) && m != old(Current()) && m != mix ==> unchanged(m)
      ensures forall m :: m in AllMagazines() ==> m.capacity == old(m.capacity) && m.name == old(m.name)
      ensures forall m :: m in AllMagazines() && m != mix ==> m.color == old(m.color)
    {
      if !isMixMode || firstMix == null {
        return false;
      }
      var second := Current();
      if second == null || second == firstMix {
        return false;
      }
      if !IsBase(second) {
        return false;
      }
      ok := MixColors(firstMix, second);
      if ok {
        ExitMixMode();
      }
    }

    /**
     * Routes a picked colour to `GetMagazineForColor(c)` and adds one bullet there;
     * false with no change when no base colour is similar or that magazine is full.
     */
    method AddColorBullet(c: Color) returns (ok: bool)
      requires Distinct()
      modifies red, green, blue
      ensures var t := GetMagazineForColor(c);
        && (t == null ==> !ok)
        && (t != null ==> ok == !old(t.IsFull()))
        && (t != null && !ok ==> unchanged(t))
        && (t != null && ok ==>
              && t.current == old(t.current) + 1
              && t.events == old(t.events) + [BulletAdded] + (if t.current >= t.capacity then [MagazineFull] else []))
        && (t != null ==> t.capacity == old(t.capacity) && t.color == old(t.color) && t.name == old(t.name))
        && (forall m :: m in AllMagazines() && m != t ==> unchanged(m))
    {
      var target := GetMagazineForColor(c);
      if target == null {
        return false;
      }
      ok := target.AddBullet();
    }

    /** Empties all four magazines (colours kept) and leaves mix mode. */
    method ClearAllMagazines()
      requires Valid()
      modifies this, red, green, blue, mix
      ensures Valid()
      ensures !isMixMode && firstMix == null && currentIndex == old(currentIndex)
      ensures events == old(events) + [MixModeChanged(false)]
      ensures forall m :: m in AllMagazines() ==>
        && m.current == 0
        && m.events == old(m.events) + [MagazineCleared]
        && m.color == old(m.color) && m.capacity == old(m.capacity) && m.name == old(m.name)
    {
      var all := AllMagazines();
      for i := 0 to |all|
        invariant forall j :: 0 <= j < i ==>
          all[j].current == 0 && all[j].events == old(all[j].events) + [MagazineCleared]
        invariant forall j :: i <= j < |all| ==>
          all[j].current == old(all[j].current) && all[j].events == old(all[j].events)
        invariant forall j :: 0 <= j < |all| ==>
          all[j].color == old(all[j].color) && all[j].capacity == old(all[j].capacity) && all[j].name == old(all[j].name)
        invariant unchanged(this)
      {
        all[i].ClearMagazine();
      }
      ExitMixMode();
    }

    /** `GetMagazineIndex` undoes `GetMagazineByIndex` on the four distinct magazines, and back. */
    lemma IndexRoundTrip()
      requires Distinct()
      ensures forall i :: 0 <= i < MagazineCount ==> GetMagazineIndex(GetMagazineByIndex(i)) == i
      ensures forall m :: m in AllMagazines() ==> GetMagazineByIndex(GetMagazineIndex(m)) == m
      ensures GetMagazineIndex(null) == -1
    {
    }
  }

  /**
   * With the default base colours, each of Unity's red, green and blue is routed to
   * its own magazine.
   */
  lemma DefaultRouting(bag: ColorBag)
    requires bag.Distinct()
    requires bag.baseRed == Red && bag.baseGreen == Green && bag.baseBlue == Blue
    ensures bag.GetMagazineForColor(Red) == bag.red
    ensures bag.GetMagazineForColor(Green) == bag.green
    ensures bag.GetMagazineForColor(Blue) == bag.blue
  {
    BaseColorsApart();
    SimilarLaws(Red, Green);
    SimilarLaws(Red, Blue);
    SimilarLaws(Green, Blue);
  }

  /** The index `GetMagazineByIndex` gives each magazine type. */
  function TypeIndex(t: MagazineType): (i: int)
    ensures 0 <= i < MagazineCount
  {
    match t
    case RedMagazine => 0
    case GreenMagazine => 1
    case BlueMagazine => 2
    case MixMagazine => 3
  }
}
