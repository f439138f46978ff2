/** The error boundary: a component that is either fine, rendering its
    children, or has caught an error, rendering a fallback with a retry. */
module ErrorHandling {
  import opened Types

  /** `hasError`, and the message of the caught error when there is one. */
  datatype BoundaryState = BoundaryState(hasError: bool, errorMessage: Option<string>)

  /** No error, no message. */
  const InitialBoundaryState := BoundaryState(false, None)

  /** What `render` produces: the fallback screen, with the error's details
      when they are shown, or the wrapped children. */
  datatype BoundaryView = Fallback(details: Option<string>) | Children

  /** `getDerivedStateFromError(error)`: the state after a descendant throws. */
  function DerivedStateFromError(message: string): (s: BoundaryState)
    ensures s.hasError && s.errorMessage == Some(message)
  {
    BoundaryState(true, Some(message))
  }

  class ErrorBoundary {
    var state: BoundaryState

    constructor ()
      ensures state == InitialBoundaryState && !state.hasError
    {
      state := InitialBoundaryState;
    }

    /** A descendant threw an error with `message`; React installs the derived state. */
    method CatchError(message: string)
      modifies this
      ensures state == DerivedStateFromError(message)
    {
      state := DerivedStateFromError(message);
    }

    /** `handleRetry`: back to the initial state. */
    method HandleRetry()
      modifies this
      ensures state == InitialBoundaryState
    {
      state := BoundaryState(false, None);
    }

    /** `render`: the fallback exactly when an error was caught, otherwise the
        children; the fallback shows the message only in a development build
        and only when the message is non-empty. */
    function Render(isDev: bool): (v: BoundaryView)
      reads this
      ensures v.Fallback? <==> state.hasError
      ensures v.Children? <==> !state.hasError
      ensures v.Fallback? ==> (v.details.Some? <==> isDev && state.errorMessage.Some? && state.errorMessage.value != "")
      ensures v.Fallback? && v.details.Some? ==> state.errorMessage == v.details
    {
      if state.hasError then
        Fallback(if isDev && state.errorMessage.Some? && state.errorMessage.value != "" then state.errorMessage else None)
      else
        Children
    }
  }

  /** After a retry the children are rendered again, whatever was caught before. */
  method RetryRendersChildren(b: ErrorBoundary, message: string, isDev: bool) returns (before: BoundaryView, after: BoundaryView)
    modifies b
    ensures before == Fallback(if isDev && message != "" then Some(message) else None)
    ensures after == Children
  {
    b.CatchError(message);
    before := b.Render(isDev);
    b.HandleRetry();
    after := b.Render(isDev);
  }
}
