/**
 * `GameFlowManager`: the game state and the colour-swatch counter. Sound requests
 * made through `AudioManager.PlaySFX` are recorded as keys in `sfxRequests`;
 * `Time.timeScale` is the field `timeScale`.
 */
module GameFlow {

  /** `GameState`. */
  datatype GameState = Boot | Playing | Paused | LevelComplete

  /** The events of `GameFlowManager`. */
  datatype FlowEvent = GameStateChanged(state: GameState) | SwatchCountChanged(collected: int, needed: int)

  /** The default number of swatches a level asks for. */
  const DefaultSwatchesNeeded: int := 3

  /**
   * `Mathf.Clamp(int, int, int)`: below `lo` gives `lo`, otherwise above `hi` gives `hi`.
   * When `lo > hi` the lower bound wins.
   */
  function Clamp(value: int, lo: int, hi: int): (r: int)
    ensures lo <= hi ==> lo <= r <= hi
    ensures lo <= value <= hi ==> r == value
    ensures value < lo ==> r == lo
    ensures lo <= value && value > hi ==> r == hi
  {
    if value < lo then lo else if value > hi then hi else value
  }

  class GameFlowManager {
    var state: GameState
    var swatchesCollected: int
    var swatchesNeeded: int
    var timeScale: real
    var events: seq<FlowEvent>
    var sfxRequests: seq<string>

    /** The counter never leaves [0, swatchesNeeded]. */
    ghost predicate Valid()
      reads this
    {
      0 <= swatchesCollected <= swatchesNeeded
    }

    constructor ()
      ensures state == Boot && swatchesCollected == 0 && swatchesNeeded == DefaultSwatchesNeeded
      ensures timeScale == 1.0 && events == [] && sfxRequests == []
      ensures Valid()
    {
      state := Boot;
      swatchesCollected := 0;
      swatchesNeeded := DefaultSwatchesNeeded;
      timeScale := 1.0;
      events := [];
      sfxRequests := [];
    }

    /** Setting the current state is a no-op; any other state is stored and announced once. */
    method SetState(newState: GameState)
      modifies this
      ensures state == newState
      ensures events == old(events) + (if old(state) == newState then [] else [GameStateChanged(newState)])
      ensures swatchesCollected == old(swatchesCollected) && swatchesNeeded == old(swatchesNeeded)
      ensures timeScale == old(timeScale) && sfxRequests == old(sfxRequests)
    {
      if state == newState {
        return;
      }
      state := newState;
      events := events + [GameStateChanged(state)];
    }

    /** `Start`: the game begins playing. */
    method Start()
      modifies this
      ensures state == Playing
      ensures events == old(events) + (if old(state) == Playing then [] else [GameStateChanged(Playing)])
      ensures swatchesCollected == old(swatchesCollected) && swatchesNeeded == old(swatchesNeeded)
      ensures timeScale == old(timeScale) && sfxRequests == old(sfxRequests)
    {
      SetState(Playing);
    }

    method OnDoorCanOpen()
      modifies this
      ensures sfxRequests == old(sfxRequests) + ["DoorOpen"]
      ensures state == old(state) && swatchesCollected == old(swatchesCollected)
      ensures swatchesNeeded == old(swatchesNeeded) && timeScale == old(timeScale) && events == old(events)
    {
      sfxRequests := sfxRequests + ["DoorOpen"];
    }

    method OnChestOpened()
      modifies this
      ensures sfxRequests == old(sfxRequests) + ["ChestOpen"]
      ensures state == old(state) && swatchesCollected == old(swatchesCollected)
      ensures swatchesNeeded == old(swatchesNeeded) && timeScale == old(timeScale) && events == old(events)
    {
      sfxRequests := sfxRequests + ["ChestOpen"];
    }

    /**
     * One more swatch, clamped to the target; the door opens on every collection
     * at which the clamped count has reached the target, repeats included.
     */
    method OnSwatchCollected()
      modifies this
      ensures swatchesCollected == Clamp(old(swatchesCollected) + 1, 0, swatchesNeeded)
      ensures old(Valid()) ==> Valid()
      ensures old(Valid()) ==>
        swatchesCollected == if old(swatchesCollected) < swatchesNeeded then old(swatchesCollected) + 1 else swatchesNeeded
      ensures events == old(events) + [SwatchCountChanged(swatchesCollected, swatchesNeeded)]
      ensures sfxRequests == old(sfxRequests) + ["CardPickup"]
        + (if swatchesCollected >= swatchesNeeded then ["DoorOpen"] else [])
      ensures state == old(state) && swatchesNeeded == old(swatchesNeeded) && timeScale == old(timeScale)
    {
      swatchesCollected := Clamp(swatchesCollected + 1, 0, swatchesNeeded);
      events := events + [SwatchCountChanged(swatchesCollected, swatchesNeeded)];
      sfxRequests := sfxRequests + ["CardPickup"];
      if swatchesCollected >= swatchesNeeded {
        OnDoorCanOpen();
      }
    }

    method OnLevelCompleted()
      modifies this
      ensures state == LevelComplete
      ensures events == old(events) + (if old(state) == LevelComplete then [] else [GameStateChanged(LevelComplete)])
      ensures swatchesCollected == old(swatchesCollected) && swatchesNeeded == old(swatchesNeeded)
      ensures timeScale == old(timeScale) && sfxRequests == old(sfxRequests)
    {
      SetState(LevelComplete);
    }

    /** Paused with time stopped, or Playing with time at normal speed. */
    method PauseGame(pause: bool)
      modifies this
      ensures state == (if pause then Paused else Playing)
      ensures timeScale == (if pause then 0.0 else 1.0)
      ensures events == old(events) + (if old(state) == state then [] else [GameStateChanged(state)])
      ensures swatchesCollected == old(swatchesCollected) && swatchesNeeded == old(swatchesNeeded)
      ensures sfxRequests == old(sfxRequests)
    {
      SetState(if pause then Paused else Playing);
      timeScale := if pause then 0.0 else 1.0;
    }
  }

  /**
   * Counting from zero, the k-th collection (1-based) opens the door exactly when
   * k >= needed, and the count then stays at the target.
   */
  lemma {:induction false} SwatchesAfter(needed: int, k: nat)
    requires needed >= 0
    ensures CollectedAfter(needed, k) == if k < needed then k else needed
    ensures 0 <= CollectedAfter(needed, k) <= needed
    ensures k >= 1 ==> (CollectedAfter(needed, k) >= needed <==> k >= needed)
  {
    if k > 0 {
      SwatchesAfter(needed, k - 1);
    }
  }

  /** The counter after `k` collections starting from zero. */
  function CollectedAfter(needed: int, k: nat): int
  {
    if k == 0 then 0 else Clamp(CollectedAfter(needed, k - 1) + 1, 0, needed)
  }
}
