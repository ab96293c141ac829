/**
 * The error boundary component: its state (`hasError`, `error`) is set by the
 * constructor, replaced from a caught error, and cleared by the reset button; render
 * shows the children, the fallback or the default error screen.
 */
module ErrorBoundary {
  import opened Wrappers

  /** A thrown `Error`: its message and, when there is one, its stack text. */
  datatype Failure = Failure(message: string, stack: Option<string>)

  /** A rendered subtree, left abstract. */
  datatype Node = Node(id: nat)

  /** What the component renders. `details` is the error shown in development mode. */
  datatype View =
    | ShowChildren(children: Node)
    | ShowFallback(fallback: Node)
    | DefaultErrorScreen(details: Option<Failure>)

  class Boundary {
    var hasError: bool
    var error: Option<Failure>
    /** The props: the children, a truthy `fallback` if any, and whether `onError` was passed. */
    const children: Node
    const fallback: Option<Node>
    const hasOnError: bool

    /** `hasError` holds exactly when an error is recorded. */
    predicate Valid()
      reads this
    {
      hasError <==> error.Some?
    }

    constructor (children: Node, fallback: Option<Node>, hasOnError: bool)
      ensures Valid()
      ensures !hasError && error == None
      ensures this.children == children && this.fallback == fallback && this.hasOnError == hasOnError
    {
      this.children := children;
      this.fallback := fallback;
      this.hasOnError := hasOnError;
      hasError := false;
      error := None;
    }

    /** `getDerivedStateFromError`: the state after a descendant throws `e`. */
    method Catch(e: Failure)
      modifies this
      ensures Valid()
      ensures hasError && error == Some(e)
    {
      hasError := true;
      error := Some(e);
    }

    /**
     * `componentDidCatch`: reports the error to `onError` when one was passed; the
     * result lists the errors handed to it. The state is not changed.
     */
    method DidCatch(e: Failure) returns (reported: seq<Failure>)
      ensures hasOnError ==> reported == [e]
      ensures !hasOnError ==> reported == []
    {
      if hasOnError {
        reported := [e];
      } else {
        reported := [];
      }
    }

    /** `handleReset`: back to no error. */
    method Reset()
      modifies this
      ensures Valid()
      ensures !hasError && error == None
    {
      hasError := false;
      error := None;
    }

    /** `render()`; `development` is whether `NODE_ENV` is "development". */
    function Render(development: bool): (v: View)
      reads this
      ensures v.ShowChildren? <==> !hasError
      ensures v.ShowChildren? ==> v.children == children
      ensures v.ShowFallback? <==> hasError && fallback.Some?
      ensures v.ShowFallback? ==> Some(v.fallback) == fallback
      ensures v.DefaultErrorScreen? ==> (v.details.Some? <==> development && error.Some?)
      ensures v.DefaultErrorScreen? && v.details.Some? ==> error == v.details
    {
      if hasError then
        if fallback.Some? then ShowFallback(fallback.value)
        else DefaultErrorScreen(if development then error else None)
      else ShowChildren(children)
    }
  }

  /** A caught error is shown until reset; after the reset the children are back. */
  method CatchThenReset(b: Boundary, e: Failure, development: bool) returns (during: View, after: View)
    modifies b
    ensures during != ShowChildren(b.children)
    ensures b.fallback.None? ==> during == DefaultErrorScreen(if development then Some(e) else None)
    ensures after == ShowChildren(b.children)
    ensures b.Valid() && !b.hasError && b.error == None
  {
    b.Catch(e);
    during := b.Render(development);
    b.Reset();
    after := b.Render(development);
  }
}
