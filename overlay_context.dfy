/** The floating overlay's store: visibility and position, replaced by four
    updaters. */
module OverlayContext {
  import opened Types

  /** Hidden, at (50, 100). */
  const InitialOverlayState := OverlayState(false, Position(50.0, 100.0))

  /** The updater of `toggleOverlay`. */
  function Toggled(prev: OverlayState): OverlayState {
    prev.(isVisible := !prev.isVisible)
  }

  /** The updater of `updateOverlayPosition(x, y)`. */
  function MovedTo(prev: OverlayState, x: real, y: real): OverlayState {
    prev.(position := Position(x, y))
  }

  /** The updater of `hideOverlay`. */
  function Hidden(prev: OverlayState): OverlayState {
    prev.(isVisible := false)
  }

  /** The updater of `showOverlay`. */
  function Shown(prev: OverlayState): OverlayState {
    prev.(isVisible := true)
  }

  /** Toggling twice restores the state. */
  lemma ToggleTwiceRestores(s: OverlayState)
    ensures Toggled(Toggled(s)) == s
  {
  }

  /** Hiding and showing are idempotent, and each undoes whatever visibility came before. */
  lemma HideShowIdempotent(s: OverlayState)
    ensures Hidden(Hidden(s)) == Hidden(s)
    ensures Shown(Shown(s)) == Shown(s)
    ensures Hidden(Shown(s)) == Hidden(s) && Shown(Hidden(s)) == Shown(s)
  {
  }

  /** Moving never changes visibility and visibility changes never move:
      the two kinds of update commute. */
  lemma MoveCommutesWithVisibility(s: OverlayState, x: real, y: real)
    ensures MovedTo(Toggled(s), x, y) == Toggled(MovedTo(s, x, y))
    ensures MovedTo(Hidden(s), x, y) == Hidden(MovedTo(s, x, y))
    ensures MovedTo(Shown(s), x, y) == Shown(MovedTo(s, x, y))
  {
  }

  /** The provider, holding `overlayState`. */
  class OverlayProvider {
    var overlayState: OverlayState

    constructor ()
      ensures overlayState == InitialOverlayState
      ensures !overlayState.isVisible && overlayState.position == Position(50.0, 100.0)
    {
      overlayState := InitialOverlayState;
    }

    /** `toggleOverlay`: flips visibility, keeps the position. */
    method ToggleOverlay()
      modifies this
      ensures overlayState == Toggled(old(overlayState))
      ensures overlayState.isVisible == !old(overlayState.isVisible)
      ensures overlayState.position == old(overlayState.position)
    {
      overlayState := Toggled(overlayState);
    }

    /** `updateOverlayPosition(x, y)`: moves to exactly (x, y), keeps visibility. */
    method UpdateOverlayPosition(x: real, y: real)
      modifies this
      ensures overlayState == MovedTo(old(overlayState), x, y)
      ensures overlayState.position == Position(x, y)
      ensures overlayState.isVisible == old(overlayState.isVisible)
    {
      overlayState := MovedTo(overlayState, x, y);
    }

    /** `hideOverlay`: hidden afterwards, position kept. */
    method HideOverlay()
      modifies this
      ensures overlayState == Hidden(old(overlayState))
      ensures !overlayState.isVisible
      ensures overlayState.position == old(overlayState.position)
    {
      overlayState := Hidden(overlayState);
    }

    /** `showOverlay`: visible afterwards, position kept. */
    method ShowOverlay()
      modifies this
      ensures overlayState == Shown(old(overlayState))
      ensures overlayState.isVisible
      ensures overlayState.position == old(overlayState.position)
    {
      overlayState := Shown(overlayState);
    }
  }
}
