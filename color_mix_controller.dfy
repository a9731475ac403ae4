/**
 * `ColorMixController`: maps the magazine keys and the mix-mode key pressed in a
 * frame to calls on the colour bag. The keys pressed this frame are a parameter.
 */
module MixControl {
  import opened Wrappers
  import opened Colors
  import opened Magazine
  import opened Bag

  /** The keys the controller can be bound to. */
  datatype KeyCode = Alpha1 | Alpha2 | Alpha3 | Alpha4 | Tab | OtherKey(code: int)

  /** The bag's event for a selection that moves from magazine `before` to `after`. */
  function SelectionEvents(before: ColorMagazine?, after: ColorMagazine?): seq<BagEvent>
  {
    if before != after then [CurrentMagazineChanged(after)] else []
  }

  /**
   * The bag's events for a mix-mode toggle: leaving mix mode, or entering it with
   * `current` as the first magazine, or nothing when the guard fails.
   */
  function ToggleEvents(wasMixMode: bool, canEnter: bool, current: ColorMagazine?): seq<BagEvent>
  {
    if wasMixMode then [MixModeChanged(false)]
    else if canEnter && current != null then [MixModeChanged(true), FirstMixMagazineSelected(current)]
    else []
  }

  class ColorMixController {
    /** The bag found at `Awake`; null when the scene has none. */
    const bag: ColorBag?
    /** The inspector's key bindings. */
    const selectMagazine1Key: KeyCode
    const selectMagazine2Key: KeyCode
    const selectMagazine3Key: KeyCode
    const selectMagazine4Key: KeyCode
    const mixModeKey: KeyCode

    /** Everything a key press can change. */
    function Footprint(): set<object>
    {
      if bag == null then {} else {bag, bag.red, bag.green, bag.blue, bag.mix}
    }

    function SelectKeys(): (keys: seq<KeyCode>)
      ensures |keys| == MagazineCount
    {
      [selectMagazine1Key, selectMagazine2Key, selectMagazine3Key, selectMagazine4Key]
    }

    /** The default bindings: keys 1 to 4 select the magazines, Tab toggles mix mode. */
    constructor (bag: ColorBag?)
      ensures this.bag == bag
      ensures SelectKeys() == [Alpha1, Alpha2, Alpha3, Alpha4] && mixModeKey == Tab
    {
      this.bag := bag;
      selectMagazine1Key := Alpha1;
      selectMagazine2Key := Alpha2;
      selectMagazine3Key := Alpha3;
      selectMagazine4Key := Alpha4;
      mixModeKey := Tab;
    }

    /**
     * The `else if` chain of `HandleMixInput`: the index of the first pressed
     * selection key, so at most one selection is handled per frame.
     */
    function SelectionFor(pressed: set<KeyCode>): (sel: Option<int>)
      ensures sel.Some? ==> 0 <= sel.value < MagazineCount && SelectKeys()[sel.value] in pressed
      ensures sel.Some? ==> forall j :: 0 <= j < sel.value ==> SelectKeys()[j] !in pressed
      ensures sel.None? <==> forall j :: 0 <= j < MagazineCount ==> SelectKeys()[j] !in pressed
    {
      if selectMagazine1Key in pressed then Some(0)
      else if selectMagazine2Key in pressed then Some(1)
      else if selectMagazine3Key in pressed then Some(2)
      else if selectMagazine4Key in pressed then Some(3)
      else None
    }

    /** Whether the bag's second mix phase succeeds once magazine `index` is selected. */
    predicate MixSucceedsWith(index: int)
      requires bag != null
      reads bag, bag.red, bag.green, bag.blue, bag.mix, bag.firstMix
    {
      var second := bag.GetMagazineByIndex(index);
      && bag.isMixMode && bag.firstMix != null
      && bag.IsBase(second) && second != bag.firstMix
      && bag.CanMix(bag.firstMix, second)
    }

    /**
     * Outside mix mode a selection is exactly `SetCurrentMagazine(index)`. In mix mode an
     * invalid index does nothing; a valid one is selected and then a mix is attempted,
     * which leaves mix mode only on success.
     */
    method HandleMagazineSelection(index: int)
      requires bag != null && bag.Valid()
      modifies bag, bag.red, bag.green, bag.blue, bag.mix
      ensures bag.Valid()
      ensures !(0 <= index < MagazineCount) ==> unchanged(bag, bag.red, bag.green, bag.blue, bag.mix)
      ensures 0 <= index < MagazineCount ==> bag.currentIndex == index
      ensures !old(MixSucceedsWith(index)) ==> unchanged(bag.red, bag.green, bag.blue, bag.mix)
      ensures !old(MixSucceedsWith(index)) ==> bag.isMixMode == old(bag.isMixMode) && bag.firstMix == old(bag.firstMix)
      ensures 0 <= index < MagazineCount && !old(MixSucceedsWith(index)) ==>
        bag.events == old(bag.events) + SelectionEvents(old(bag.Current()), bag.Current())
      ensures old(MixSucceedsWith(index)) ==>
        && !bag.isMixMode && bag.firstMix == null
        && old(bag.firstMix).current == 0 && bag.GetMagazineByIndex(index).current == 0
        && bag.mix.current == bag.mix.capacity
        && bag.mix.color == Mix(old(bag.firstMix.color), old(bag.GetMagazineByIndex(index).color))
        && bag.events == old(bag.events) + SelectionEvents(old(bag.Current()), bag.Current())
           + [ColorsMixed(old(bag.firstMix), bag.GetMagazineByIndex(index),
                          Mix(old(bag.firstMix.color), old(bag.GetMagazineByIndex(index).color))),
              MixModeChanged(false)]
      ensures old(bag.isMixMode) && bag.GetMagazineByIndex(index) == old(bag.firstMix) ==> bag.isMixMode
    {
      if bag.isMixMode {
        var selected := bag.SetCurrentMagazine(index);
        if selected {
          var mixed := bag.TryMixWithCurrentMagazine();
        }
      } else {
        var selected := bag.SetCurrentMagazine(index);
      }
    }

    /**
     * In mix mode the toggle always leaves it; outside mix mode it enters it only
     * under `EnterMixMode`'s guard and otherwise changes nothing.
     */
    method HandleMixModeToggle()
      requires bag != null && bag.Valid()
      modifies bag
      ensures bag.Valid()
      ensures old(bag.isMixMode) ==> !bag.isMixMode && bag.firstMix == null
      ensures !old(bag.isMixMode) ==> (bag.isMixMode <==> old(bag.CanEnterMixMode()))
      ensures !old(bag.isMixMode) && !old(bag.CanEnterMixMode()) ==> unchanged(bag)
      ensures bag.isMixMode ==> bag.firstMix == old(bag.Current())
      ensures bag.currentIndex == old(bag.currentIndex)
      ensures bag.CanEnterMixMode() == old(bag.CanEnterMixMode())
      ensures bag.events == old(bag.events) + ToggleEvents(old(bag.isMixMode), old(bag.CanEnterMixMode()), old(bag.Current()))
    {
      if bag.isMixMode {
        bag.ExitMixMode();
      } else {
        bag.EnterMixMode();
      }
    }

    /**
     * One frame of input: at most one selection (the first pressed selection key),
     * handled as `HandleMagazineSelection`, then the mix-mode toggle if its key is
     * pressed, which acts on the mode the selection left. Nothing happens without a bag.
     */
    method HandleMixInput(pressed: set<KeyCode>)
      requires bag != null ==> bag.Valid()
      modifies Footprint()
      ensures bag != null ==> bag.Valid()
      ensures bag == null || (SelectionFor(pressed).None? && mixModeKey !in pressed) ==> unchanged(Footprint())
      // A selection key: the selection and the mix attempt of `HandleMagazineSelection`.
      ensures bag != null && SelectionFor(pressed).Some? ==>
        var i := SelectionFor(pressed).value;
        && bag.currentIndex == i
        && (!old(MixSucceedsWith(i)) ==> unchanged(bag.red, bag.green, bag.blue, bag.mix))
        && (old(MixSucceedsWith(i)) ==>
              && old(bag.firstMix).current == 0 && bag.GetMagazineByIndex(i).current == 0
              && bag.mix.current == bag.mix.capacity
              && bag.mix.color == Mix(old(bag.firstMix.color), old(bag.GetMagazineByIndex(i).color)))
      // ... without the toggle key: the mode and events `HandleMagazineSelection` leaves.
      ensures bag != null && SelectionFor(pressed).Some? && mixModeKey !in pressed ==>
        var i := SelectionFor(pressed).value;
        && (!old(MixSucceedsWith(i)) ==>
              && bag.isMixMode == old(bag.isMixMode) && bag.firstMix == old(bag.firstMix)
              && bag.events == old(bag.events) + SelectionEvents(old(bag.Current()), bag.Current()))
        && (old(MixSucceedsWith(i)) ==>
              && !bag.isMixMode && bag.firstMix == null
              && bag.events == old(bag.events) + SelectionEvents(old(bag.Current()), bag.Current())
                 + [ColorsMixed(old(bag.firstMix), bag.GetMagazineByIndex(i),
                                Mix(old(bag.firstMix.color), old(bag.GetMagazineByIndex(i).color))),
                    MixModeChanged(false)])
      // ... with the toggle key: the toggle acts on the mode after the selection.
      ensures bag != null && SelectionFor(pressed).Some? && mixModeKey in pressed ==>
        var i := SelectionFor(pressed).value;
        var modeAfterSelection := old(bag.isMixMode) && !old(MixSucceedsWith(i));
        && (modeAfterSelection ==> !bag.isMixMode && bag.firstMix == null)
        && (!modeAfterSelection ==> (bag.isMixMode <==> bag.CanEnterMixMode()))
        && (bag.isMixMode ==> bag.firstMix == bag.Current())
        && (!old(MixSucceedsWith(i)) ==>
              bag.events == old(bag.events) + SelectionEvents(old(bag.Current()), bag.Current())
                 + ToggleEvents(modeAfterSelection, bag.CanEnterMixMode(), bag.Current()))
        && (old(MixSucceedsWith(i)) ==>
              bag.events == old(bag.events) + SelectionEvents(old(bag.Current()), bag.Current())
                 + [ColorsMixed(old(bag.firstMix), bag.GetMagazineByIndex(i),
                                Mix(old(bag.firstMix.color), old(bag.GetMagazineByIndex(i).color))),
                    MixModeChanged(false)]
                 + ToggleEvents(false, bag.CanEnterMixMode(), bag.Current()))
      // The toggle key alone.
      ensures bag != null && SelectionFor(pressed).None? && mixModeKey in pressed ==>
        && (old(bag.isMixMode) ==> !bag.isMixMode && bag.firstMix == null)
        && (!old(bag.isMixMode) ==> (bag.isMixMode <==> old(bag.CanEnterMixMode())))
        && unchanged(bag.red, bag.green, bag.blue, bag.mix)
        && bag.currentIndex == old(bag.currentIndex)
        && bag.events == old(bag.events) + ToggleEvents(old(bag.isMixMode), old(bag.CanEnterMixMode()), old(bag.Current()))
    {
      if bag == null {
        return;
      }
      var selection := SelectionFor(pressed);
      if selection.Some? {
        HandleMagazineSelection(selection.value);
      }
      if mixModeKey in pressed {
        HandleMixModeToggle();
      }
    }
  }
}
