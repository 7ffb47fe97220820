/**
 * `SignaturePadViewModel` of the older `composesignature` module: an
 * observable state whose value is a mutable list of drawn paths.  The element
 * type `P` stands for `PathState`, which is not looked into.
 */
module PadViewModel {

  /** A Kotlin `MutableList<PathState>`: an object whose contents change in place. */
  class PathList<P> {
    var items: seq<P>

    /** `mutableListOf()`. */
    constructor ()
      ensures items == []
    {
      items := [];
    }
  }

  class SignaturePadViewModel<P> {
    /** The list held by `_path` (what `path.value` returns). */
    var path: PathList<P>

    /** The initial list is a new, empty one. */
    constructor ()
      ensures fresh(path) && path.items == []
    {
      path := new PathList<P>();
    }

    /**
     * `setPathState`: appends to the list that is already held, so the state
     * keeps the same list object, which grows by `value` at its end.
     */
    method SetPathState(value: P)
      modifies path
      ensures path == old(path)
      ensures path.items == old(path.items) + [value]
    {
      path.items := path.items + [value];
    }

    /**
     * `clearPathState`: installs a new, empty list.  The list held before is
     * not emptied: whoever read it earlier still sees its old contents.
     */
    method ClearPathState()
      modifies this
      ensures fresh(path) && path.items == []
      ensures old(path).items == old(path.items)
    {
      path := new PathList<P>();
    }
  }

  /** Observable behaviour of the view model under the calls the legacy pad makes. */
  method UseViewModel<P>(a: P, b: P)
  {
    var model := new SignaturePadViewModel<P>();
    var before := model.path;
    model.SetPathState(a);
    model.SetPathState(b);
    assert model.path == before && before.items == [a, b];
    model.ClearPathState();
    var cleared := model.path;
    assert cleared != before && cleared.items == [] && before.items == [a, b];
    model.ClearPathState();
    assert model.path.items == cleared.items;
  }
}
