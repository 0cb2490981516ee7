/** The error boundary around page content and the hook-based error handler:
    which error is held, when it is cleared, and what is rendered. */
module ErrorHandling {
  import opened Wrappers

  /** A thrown error; only its message is ever shown. */
  datatype Err = Err(message: string)

  /** The boundary's `state`. */
  datatype BoundaryState = BoundaryState(hasError: bool, error: Option<Err>)

  /** `getDerivedStateFromError`: the state after a child throws `e`. */
  function DerivedStateFromError(e: Err): (s: BoundaryState)
    ensures s.hasError && s.error == Some(e)
  {
    BoundaryState(true, Some(e))
  }

  /** What the boundary renders. */
  datatype Rendered =
    | Children
    | FallbackNode(node: string)
    | DefaultAlert(details: Option<string>)

  /** The fallback prop is used when it is truthy; an empty string is not. */
  predicate UsableFallback(fallback: Option<string>) {
    fallback.Some? && fallback.value != ""
  }

  /** `render`: the children while there is no error; after an error the
      fallback if one was given, else the alert, which shows the message only
      in development builds. */
  function RenderBoundary(state: BoundaryState, fallback: Option<string>, development: bool): (r: Rendered)
    ensures r == Children <==> !state.hasError
    ensures r.FallbackNode? <==> state.hasError && UsableFallback(fallback)
    ensures r.FallbackNode? ==> r.node == fallback.value
    ensures r.DefaultAlert? ==> (r.details.Some? <==> development && state.error.Some?)
    ensures r.DefaultAlert? && r.details.Some? ==> r.details.value == state.error.value.message
  {
    if state.hasError then
      if UsableFallback(fallback) then FallbackNode(fallback.value)
      else DefaultAlert(if development && state.error.Some? then Some(state.error.value.message) else None)
    else Children
  }

  /** The `ErrorBoundary` component instance. */
  class ErrorBoundary {
    var state: BoundaryState
    const fallback: Option<string>

    /** An error flag always comes with the error that raised it. */
    predicate Valid()
      reads this
    {
      state.hasError <==> state.error.Some?
    }

    constructor (fallback: Option<string>)
      ensures Valid() && state == BoundaryState(false, None) && this.fallback == fallback
    {
      state := BoundaryState(false, None);
      this.fallback := fallback;
    }

    /** A child threw `e`: React replaces the state with the derived one. */
    method Catch(e: Err)
      requires Valid()
      modifies this`state
      ensures Valid() && state == DerivedStateFromError(e)
    {
      state := DerivedStateFromError(e);
    }

    /** `handleReset` ("Try Again"). */
    method HandleReset()
      requires Valid()
      modifies this`state
      ensures Valid() && state == BoundaryState(false, None)
    {
      state := BoundaryState(false, None);
    }

    function Render(development: bool): Rendered
      reads this
    {
      RenderBoundary(state, fallback, development)
    }
  }

  /** After "Try Again" the children are rendered again, whatever was caught. */
  lemma ResetShowsChildren(fallback: Option<string>, development: bool)
    ensures RenderBoundary(BoundaryState(false, None), fallback, development) == Children
  {
  }

  /** A caught error always hides the children, and without a fallback the
      development alert names it. */
  lemma CaughtErrorIsReported(e: Err, fallback: Option<string>)
    ensures RenderBoundary(DerivedStateFromError(e), fallback, true) != Children
    ensures !UsableFallback(fallback) ==>
      RenderBoundary(DerivedStateFromError(e), fallback, true) == DefaultAlert(Some(e.message))
    ensures !UsableFallback(fallback) ==>
      RenderBoundary(DerivedStateFromError(e), fallback, false) == DefaultAlert(None)
  {
  }

  /** The state `useErrorHandler` keeps. */
  class ErrorHandler {
    var error: Option<Err>

    constructor ()
      ensures error == None
    {
      error := None;
    }

    /** `handleError`: keep the error (it is logged as well). */
    method HandleError(e: Err)
      modifies this
      ensures error == Some(e) && Rethrows() == Some(e)
    {
      error := Some(e);
    }

    /** `resetError` */
    method ResetError()
      modifies this
      ensures error == None && Rethrows() == None
    {
      error := None;
    }

    /** The effect that runs after a change: a held error is thrown again, to
        the nearest boundary. */
    function Rethrows(): (r: Option<Err>)
      reads this
      ensures r.Some? <==> error.Some?
      ensures r.Some? ==> r == error
    {
      if error.Some? then error else None
    }
  }
}
