/**
 * The selection cursor of the stack list: ratatui's `ListState`, reduced to
 * its selected index. Its code lives in the ratatui library and is not part
 * of this model; the three operations below state how ratatui 0.29 behaves,
 * and are the model's assumption about that library.
 */
module ListStates {
  import opened Wrappers

  /** `usize::MAX` on a 64-bit target. */
  const UsizeMax: nat := 0xFFFF_FFFF_FFFF_FFFF

  type usize = x: nat | x <= UsizeMax

  datatype ListState = ListState(selected: Option<usize>)

  /** `ListState::default()`: nothing selected. */
  const DefaultListState := ListState(None)

  /** `select_next`: the first item when nothing is selected, otherwise one further (saturating). */
  function SelectNext(s: ListState): (r: ListState)
    ensures r.selected.Some?
    ensures s.selected.Some? ==> s.selected.value <= r.selected.value <= s.selected.value + 1
  {
    match s.selected
    case None => ListState(Some(0))
    case Some(i) => ListState(Some(if i == UsizeMax then i else i + 1))
  }

  /** `select_previous`: `usize::MAX` when nothing is selected, otherwise one back (saturating at 0). */
  function SelectPrevious(s: ListState): (r: ListState)
    ensures r.selected.Some?
    ensures s.selected.Some? ==> s.selected.value - 1 <= r.selected.value <= s.selected.value
  {
    match s.selected
    case None => ListState(Some(UsizeMax))
    case Some(i) => ListState(Some(if i == 0 then 0 else i - 1))
  }

  /**
   * What rendering a list of `n` items does to its state: an empty list
   * deselects, a selection past the end is pulled back to the last item.
   */
  function Clamp(s: ListState, n: nat): (r: ListState)
    ensures SelectsWithin(r, n)
    ensures n == 0 ==> r.selected.None?
  {
    if n == 0 then ListState(None)
    else
      match s.selected
      case Some(i) => if i >= n then ListState(Some(n - 1)) else s
      case None => s
  }

  /** The selection is absent or indexes a list of `n` items. */
  predicate SelectsWithin(s: ListState, n: nat) {
    match s.selected
    case None => true
    case Some(i) => i < n
  }

  /**
   * After rendering, the selection lies within the list; rendering leaves a
   * selection that already lies within a non-empty list alone, and removes
   * the selection exactly when the list is empty or nothing was selected.
   */
  lemma ClampSelectsWithin(s: ListState, n: nat)
    ensures SelectsWithin(Clamp(s, n), n)
    ensures n > 0 && SelectsWithin(s, n) ==> Clamp(s, n) == s
    ensures Clamp(s, n).selected.None? <==> n == 0 || s.selected.None?
  {
  }

  /**
   * Moving down, then rendering, on a non-empty list: nothing selected
   * selects the first item; the last item stays selected; otherwise the
   * selection moves one down.
   */
  lemma MoveDownThenRender(s: ListState, n: nat)
    requires 0 < n <= UsizeMax
    requires SelectsWithin(s, n)
    ensures Clamp(SelectNext(s), n).selected ==
      match s.selected
      case None => Some(0)
      case Some(i) => Some(if i + 1 < n then i + 1 else i)
  {
  }

  /**
   * Moving up, then rendering, on a non-empty list: nothing selected selects
   * the last item; the first item stays selected; otherwise the selection
   * moves one up.
   */
  lemma MoveUpThenRender(s: ListState, n: nat)
    requires 0 < n <= UsizeMax
    requires SelectsWithin(s, n)
    ensures Clamp(SelectPrevious(s), n).selected ==
      match s.selected
      case None => Some(n - 1)
      case Some(i) => Some(if i == 0 then 0 else i - 1)
  {
  }
}
