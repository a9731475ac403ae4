/**
 * `ColorPicker`: a two-slot picking state machine. The first pick fills slot 0,
 * the second (with auto-mix) fills slot 1 and mixes both into slot 0; after that
 * every pick replaces slot 1. Raycasting for the picked colour is not modelled: the
 * picked colour is a parameter.
 */
module Picker {
  import opened Colors

  /** The events of `ColorPicker`. */
  datatype PickerEvent = ColorPicked(color: Color, slot: int) | ColorsMixed(mixed: Color) | ColorSlotsCleared

  /** The default `maxColorSlots`. */
  const DefaultMaxColorSlots: int := 2

  class ColorPicker {
    /** Allocated at `Awake` with `maxColorSlots` entries and never replaced. */
    const colorSlots: array<Color>
    const autoMixOnSecondPick: bool
    var mixedColor: Color
    var pickCount: int
    var mixedDone: bool
    var events: seq<PickerEvent>

    /**
     * The pick counter tells the phase: at most one pick before the first mix,
     * at least two once a mix has happened.
     */
    ghost predicate Valid()
      reads this
    {
      && colorSlots.Length >= 2
      && (!mixedDone ==> 0 <= pickCount <= 1)
      && (mixedDone ==> pickCount >= 2)
    }

    /** `Awake`: every slot holds `default(Color)`, which is the clear colour. */
    constructor (maxColorSlots: int, autoMixOnSecondPick: bool)
      requires maxColorSlots >= 2
      ensures Valid() && fresh(colorSlots)
      ensures colorSlots.Length == maxColorSlots && this.autoMixOnSecondPick == autoMixOnSecondPick
      ensures forall i :: 0 <= i < colorSlots.Length ==> colorSlots[i] == Clear
      ensures mixedColor == Clear && pickCount == 0 && !mixedDone && events == []
    {
      colorSlots := new Color[maxColorSlots](_ => Clear);
      this.autoMixOnSecondPick := autoMixOnSecondPick;
      mixedColor := Clear;
      pickCount := 0;
      mixedDone := false;
      events := [];
    }

    /**
     * Slot 0 becomes the mix of both slots, slot 1 is cleared, one more pick is
     * counted and the picker is marked as mixed.
     */
    method PerformColorMixing()
      requires colorSlots.Length >= 2
      modifies this, colorSlots
      ensures colorSlots[..] == old(colorSlots[..])[0 := Mix(old(colorSlots[0]), old(colorSlots[1]))][1 := Clear]
      ensures mixedColor == Mix(old(colorSlots[0]), old(colorSlots[1]))
      ensures pickCount == old(pickCount) + 1 && mixedDone
      ensures events == old(events) + [ColorsMixed(mixedColor)]
    {
      mixedColor := Mix(colorSlots[0], colorSlots[1]);
      colorSlots[0] := mixedColor;
      colorSlots[1] := Clear;
      pickCount := pickCount + 1;
      mixedDone := true;
      events := events + [ColorsMixed(mixedColor)];
    }

    /** Before the first mix: the first pick fills slot 0, the second fills slot 1 and, with auto-mix, mixes. */
    method ProcessColorBeforeMixing(c: Color)
      requires Valid() && !mixedDone
      modifies this, colorSlots
      ensures Valid()
      ensures old(pickCount) == 0 ==>
        && colorSlots[..] == old(colorSlots[..])[0 := c]
        && pickCount == 1 && !mixedDone && mixedColor == old(mixedColor)
        && events == old(events) + [ColorPicked(c, 0)]
      ensures old(pickCount) == 1 && autoMixOnSecondPick ==>
        && colorSlots[..] == old(colorSlots[..])[0 := Mix(old(colorSlots[0]), c)][1 := Clear]
        && pickCount == 2 && mixedDone && mixedColor == Mix(old(colorSlots[0]), c)
        && events == old(events) + [ColorPicked(c, 1), ColorsMixed(mixedColor)]
      ensures old(pickCount) == 1 && !autoMixOnSecondPick ==> unchanged(this, colorSlots)
    {
      if pickCount == 0 {
        colorSlots[0] := c;
        pickCount := pickCount + 1;
        events := events + [ColorPicked(c, 0)];
      } else if pickCount == 1 && autoMixOnSecondPick {
        colorSlots[1] := c;
        events := events + [ColorPicked(c, 1)];
        PerformColorMixing();
      }
    }

    /** After a mix every pick replaces slot 1; the counter is left as it is. */
    method ProcessColorAfterMixing(c: Color)
      requires colorSlots.Length >= 2
      modifies this, colorSlots
      ensures colorSlots[..] == old(colorSlots[..])[1 := c]
      ensures pickCount == old(pickCount) && mixedDone == old(mixedDone) && mixedColor == old(mixedColor)
      ensures events == old(events) + [ColorPicked(c, 1)]
    {
      colorSlots[1] := c;
      events := events + [ColorPicked(c, 1)];
    }

    /** Dispatches a picked colour on whether a mix has happened. */
    method ProcessPickedColor(c: Color)
      requires Valid()
      modifies this, colorSlots
      ensures Valid()
      ensures !old(mixedDone) && old(pickCount) == 0 ==>
        && colorSlots[..] == old(colorSlots[..])[0 := c]
        && pickCount == 1 && !mixedDone && mixedColor == old(mixedColor)
        && events == old(events) + [ColorPicked(c, 0)]
      ensures !old(mixedDone) && old(pickCount) == 1 && autoMixOnSecondPick ==>
        && colorSlots[..] == old(colorSlots[..])[0 := Mix(old(colorSlots[0]), c)][1 := Clear]
        && pickCount == 2 && mixedDone && mixedColor == Mix(old(colorSlots[0]), c)
        && events == old(events) + [ColorPicked(c, 1), ColorsMixed(mixedColor)]
      ensures !old(mixedDone) && old(pickCount) == 1 && !autoMixOnSecondPick ==> unchanged(this, colorSlots)
      ensures old(mixedDone) ==>
        && colorSlots[..] == old(colorSlots[..])[1 := c]
        && pickCount == old(pickCount) && mixedDone && mixedColor == old(mixedColor)
        && events == old(events) + [ColorPicked(c, 1)]
    {
      if !mixedDone {
        ProcessColorBeforeMixing(c);
      } else {
        ProcessColorAfterMixing(c);
      }
    }

    /**
     * Mixes the two slots on request; refused (no change) with fewer than two picks,
     * which by `Valid` means only a picker that has already mixed can mix again.
     */
    method MixCurrentColors()
      requires Valid()
      modifies this, colorSlots
      ensures Valid()
      ensures old(pickCount) >= 2 ==> old(mixedDone)
      ensures old(pickCount) < 2 ==> unchanged(this, colorSlots)
      ensures old(pickCount) >= 2 ==>
        && colorSlots[..] == old(colorSlots[..])[0 := Mix(old(colorSlots[0]), old(colorSlots[1]))][1 := Clear]
        && mixedColor == Mix(old(colorSlots[0]), old(colorSlots[1]))
        && pickCount == old(pickCount) + 1 && mixedDone
        && events == old(events) + [ColorsMixed(mixedColor)]
    {
      if pickCount < 2 {
        return;
      }
      PerformColorMixing();
    }

    /** Every slot and the mixed colour become clear, and the picker starts over. */
    method ClearColorSlots()
      modifies this, colorSlots
      ensures forall i :: 0 <= i < colorSlots.Length ==> colorSlots[i] == Clear
      ensures mixedColor == Clear && pickCount == 0 && !mixedDone
      ensures events == old(events) + [ColorSlotsCleared]
      ensures colorSlots.Length >= 2 ==> Valid()
    {
      for i := 0 to colorSlots.Length
        invariant forall j :: 0 <= j < i ==> colorSlots[j] == Clear
        invariant unchanged(this)
      {
        colorSlots[i] := Clear;
      }
      mixedColor := Clear;
      pickCount := 0;
      mixedDone := false;
      events := events + [ColorSlotsCleared];
    }

    /** The colour in a slot; the clear colour for an index out of range. */
    function GetColorFromSlot(slotIndex: int): (c: Color)
      reads colorSlots
      ensures 0 <= slotIndex < colorSlots.Length ==> c == colorSlots[slotIndex]
      ensures !(0 <= slotIndex < colorSlots.Length) ==> c == Clear
    {
      if slotIndex < 0 || slotIndex >= colorSlots.Length then Clear else colorSlots[slotIndex]
    }

    /** Writes one slot; an index out of range changes nothing. */
    method SetColorToSlot(slotIndex: int, c: Color)
      modifies this, colorSlots
      ensures !(0 <= slotIndex < colorSlots.Length) ==> unchanged(this, colorSlots)
      ensures 0 <= slotIndex < colorSlots.Length ==>
        && colorSlots[..] == old(colorSlots[..])[slotIndex := c]
        && GetColorFromSlot(slotIndex) == c
        && events == old(events) + [ColorPicked(c, slotIndex)]
      ensures pickCount == old(pickCount) && mixedDone == old(mixedDone) && mixedColor == old(mixedColor)
      ensures old(Valid()) ==> Valid()
    {
      if slotIndex < 0 || slotIndex >= colorSlots.Length {
        return;
      }
      colorSlots[slotIndex] := c;
      events := events + [ColorPicked(c, slotIndex)];
    }
  }
}
