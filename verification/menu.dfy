/**
 * The two dropdown menus of a listing row and the index-keyed handler tables
 * behind them.  `ListingActions` renders a four-entry menu over a four-entry
 * table; the unused `Options` component renders a five-entry menu over the
 * same four indices, so its fourth entry ("Flag") runs the delete handler and
 * its fifth ("Delete") has no handler at all.  The model keeps that quirk.
 */
module Menu {
  import opened Wrappers

  /** One dropdown entry: its caption (the label shown) and whether a click shows a per-item spinner. */
  datatype Item = Item(caption: string, showLoader: bool)

  /** The component that renders the menu.  `Options` receives the parent's
      modal setter as an optional prop; `hasModalSetter` says whether it was given. */
  datatype Variant = ListingActions | Options(hasModalSetter: bool)

  /** What a handler does when it runs. */
  datatype Action = Approve | Unpublish | OpenDetails | OpenEdit | Delete

  const DropdownList: seq<Item> := [
    Item("Approve", true),
    Item("Reject", true),
    Item("View details", false),
    Item("Delete", true)
  ]

  const OptionsList: seq<Item> := [
    Item("Approve", true),
    Item("Reject", true),
    Item("Edit", false),
    Item("Flag", true),
    Item("Delete", true)
  ]

  /** The menu a variant renders. */
  function Items(v: Variant): seq<Item> {
    if v.ListingActions? then DropdownList else OptionsList
  }

  /** The handler registered under `idx`, if any.  Both components register
      exactly the indices 0..3; index 2 opens the details modal in
      `ListingActions` and the edit modal in `Options`. */
  function HandlerAt(v: Variant, idx: int): (r: Option<Action>)
    ensures r.Some? ==> 0 <= idx < |Items(v)|
    ensures r.Some? <==> 0 <= idx < 4
    ensures r.Some? && r.value.OpenDetails? ==> v.ListingActions?
    ensures r.Some? && r.value.OpenEdit? ==> v.Options?
  {
    if idx == 0 then Some(Approve)
    else if idx == 1 then Some(Unpublish)
    else if idx == 2 then Some(if v.ListingActions? then OpenDetails else OpenEdit)
    else if idx == 3 then Some(Delete)
    else None
  }

  /** Handlers that issue a server mutation (the others only set the modal). */
  predicate IsMutation(a: Action) {
    a.Approve? || a.Unpublish? || a.Delete?
  }

  /** Whether the entry rendered at `idx` asks for a spinner. */
  predicate ShowsLoader(v: Variant, idx: int) {
    0 <= idx < |Items(v)| && Items(v)[idx].showLoader
  }

  /** Whether a click on `idx` can ever raise its loading flag. */
  predicate RaisesFlag(v: Variant, idx: int) {
    ShowsLoader(v, idx) && HandlerAt(v, idx).Some?
  }

  /** The label a reader would expect on the entry that triggers `a`. */
  function LabelOf(a: Action): string {
    match a
    case Approve => "Approve"
    case Unpublish => "Reject"
    case OpenDetails => "View details"
    case OpenEdit => "Edit"
    case Delete => "Delete"
  }

  /** In `ListingActions` every entry has a handler, and the handler is the one
      its label names. */
  lemma ListingActionsLabelsMatchHandlers(idx: int)
    requires 0 <= idx < |Items(ListingActions)|
    ensures HandlerAt(ListingActions, idx).Some?
    ensures LabelOf(HandlerAt(ListingActions, idx).value) == Items(ListingActions)[idx].caption
  {
  }

  /** In `Options` the first three entries run the handler their label names:
      approve, unpublish ("Reject") and the edit modal. */
  lemma OptionsLeadingLabelsMatchHandlers(v: Variant, idx: int)
    requires v.Options?
    requires 0 <= idx < 3
    ensures HandlerAt(v, idx).Some?
    ensures LabelOf(HandlerAt(v, idx).value) == Items(v)[idx].caption
  {
  }

  /** Distinct actions carry distinct labels, so matching a label pins the action. */
  lemma LabelOfInjective(a: Action, b: Action)
    ensures LabelOf(a) == LabelOf(b) ==> a == b
  {
  }

  /** In `Options` the entry labelled "Flag" runs the delete handler, and the
      entry labelled "Delete" has no handler although it asks for a spinner. */
  lemma OptionsMenuOverhangsHandlers(v: Variant)
    requires v.Options?
    ensures |Items(v)| == 5
    ensures Items(v)[3].caption == "Flag" && HandlerAt(v, 3) == Some(Delete)
    ensures LabelOf(HandlerAt(v, 3).value) != Items(v)[3].caption
    ensures Items(v)[4].caption == "Delete" && Items(v)[4].showLoader
    ensures HandlerAt(v, 4).None? && !RaisesFlag(v, 4)
  {
  }

  /** Only indices with a handler and a spinner can raise a flag: "View details"
      / "Edit" never do, and neither does the handler-less last entry of `Options`. */
  lemma RaisesFlagExactly(v: Variant, idx: int)
    ensures RaisesFlag(v, idx) <==> idx in {0, 1, 3}
  {
  }
}
