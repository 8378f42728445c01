/**
 * The click-dispatch state machine shared by `ListingActions` and `Options`.
 *
 * A click and the settling of the handler it started are two separate events
 * over immutable state: `Click` runs the synchronous part of `handleItemClick`
 * (handler lookup, raising the flag, starting the handler), `Settle` runs what
 * follows the `await` (success toast, error toast or rethrow, clearing the
 * flag).  Mutations and toasts are emitted as `Output` values.
 */
module Dispatch {
  import opened Wrappers
  import opened Menu

  /** The modal slot: closed, showing the details view, or showing the edit form. */
  datatype Modal = Closed | Details | Edit

  /** Component state: the modal slot and one loading flag per menu entry. */
  datatype UiState = UiState(modal: Modal, flags: seq<bool>)

  /** The listing record passed in by the parent; only its id is used here
      (an empty id stands for a falsy one). */
  datatype Listing = Listing(id: string)

  /** How the server answered a mutation: resolved, or rejected with an error
      that may carry `response.data.message`. */
  datatype Outcome = Resolved | Rejected(serverMessage: Option<string>)

  /** The three mutations a handler can issue. */
  datatype MutationCall =
    | ApproveListing(id: string)
    | UpdatePublishStatus(propertyId: string, status: string)
    | DeleteListing(id: string)
  {
    /** The listing the mutation is about. */
    function Target(): string {
      match this
      case ApproveListing(id) => id
      case UpdatePublishStatus(id, _) => id
      case DeleteListing(id) => id
    }

    /** The handler that issues this kind of mutation. */
    function Kind(): Action {
      match this
      case ApproveListing(_) => Approve
      case UpdatePublishStatus(_, _) => Unpublish
      case DeleteListing(_) => Delete
    }
  }

  /** What the component emits: a mutation request, a toast, or a rejection
      that escapes the click handler uncaught. */
  datatype Output =
    | Mutation(call: MutationCall)
    | ToastSuccess(text: string)
    | ToastError(text: string)
    | Uncaught(serverMessage: Option<string>)

  /** The result of one event: the new state and what was emitted. */
  datatype Step = Step(state: UiState, outputs: seq<Output>)

  const FallbackError: string := "An error occurred"
  const UnpublishStatus: string := "unpublish"

  /** A state fits the variant's menu: one flag per entry. */
  predicate Valid(v: Variant, s: UiState) {
    |s.flags| == |Items(v)|
  }

  /** Mount state: modal closed, one cleared flag per menu entry. */
  function Init(v: Variant): (s: UiState)
    ensures Valid(v, s)
    ensures s.modal == Closed
    ensures |s.flags| == (if v.ListingActions? then 4 else 5)
    ensures forall i :: 0 <= i < |s.flags| ==> !s.flags[i]
  {
    UiState(Closed, seq(|Items(v)|, _ => false))
  }

  /** Copy the flags and overwrite one slot. */
  function SetFlag(flags: seq<bool>, idx: int, value: bool): (r: seq<bool>)
    requires 0 <= idx < |flags|
    ensures |r| == |flags|
    ensures r[idx] == value
    ensures forall i :: 0 <= i < |flags| && i != idx ==> r[i] == flags[i]
  {
    flags[idx := value]
  }

  /** The mutation a mutation handler issues for listing `id`. */
  function CallFor(a: Action, id: string): (c: MutationCall)
    requires IsMutation(a)
    ensures c.Kind() == a && c.Target() == id
    ensures c.UpdatePublishStatus? ==> c.status == UnpublishStatus
  {
    match a
    case Approve => ApproveListing(id)
    case Unpublish => UpdatePublishStatus(id, UnpublishStatus)
    case Delete => DeleteListing(id)
  }

  /** The toast shown when a mutation handler resolves. */
  function SuccessText(a: Action): string
    requires IsMutation(a)
  {
    match a
    case Approve => "Property approved successfully"
    case Unpublish => "Property unpublished successfully"
    case Delete => "Property deleted successfully"
  }

  /** The error toast of `ListingActions`: the server's message when it is a
      non-empty string, the generic fallback otherwise.  Never empty. */
  function ErrorText(serverMessage: Option<string>): (r: string)
    ensures r != ""
    ensures r == FallbackError || (serverMessage.Some? && r == serverMessage.value)
    ensures serverMessage.Some? && serverMessage.value != "" ==> r == serverMessage.value
  {
    if serverMessage.Some? && serverMessage.value != "" then serverMessage.value else FallbackError
  }

  /** How a started handler actually settles.  Modal handlers cannot fail;
      a mutation handler without a listing fails on `const { id } = data`
      before any request, with no server message; otherwise the server decides. */
  function Effective(data: Option<Listing>, a: Action, server: Outcome): Outcome {
    if !IsMutation(a) then Resolved
    else if data.None? then Rejected(None)
    else server
  }

  /** The modal after a modal handler runs.  In `Options` the setter prop is
      optional, and without it the handler does nothing. */
  function OpenModal(v: Variant, a: Action, current: Modal): Modal {
    match a
    case OpenDetails => Details
    case OpenEdit => if v.Options? && v.hasModalSetter then Edit else current
    case _ => current
  }

  /** The synchronous part of a click on entry `idx`: nothing when no handler
      is registered; otherwise raise the flag (for spinner entries) and start
      the handler, which either issues its one mutation or sets the modal. */
  function Click(v: Variant, data: Option<Listing>, s: UiState, idx: int): (r: Step)
    requires Valid(v, s)
    ensures Valid(v, r.state)
    // no handler: a complete no-op
    ensures HandlerAt(v, idx).None? ==> r.state == s && r.outputs == []
    // flags: only slot idx may change, and it is raised exactly for spinner entries with a handler
    ensures forall i :: 0 <= i < |s.flags| && i != idx ==> r.state.flags[i] == s.flags[i]
    ensures RaisesFlag(v, idx) ==> r.state.flags[idx]
    ensures !RaisesFlag(v, idx) ==> r.state.flags == s.flags
    // outputs: at most one, a mutation, issued exactly by a mutation handler with a listing
    ensures |r.outputs| <= 1
    ensures |r.outputs| == 1 <==> HandlerAt(v, idx).Some? && IsMutation(HandlerAt(v, idx).value) && data.Some?
    ensures |r.outputs| == 1 ==> r.outputs == [Mutation(CallFor(HandlerAt(v, idx).value, data.value.id))]
    // modal: only a modal handler changes it
    ensures HandlerAt(v, idx) == Some(OpenDetails) ==> r.state.modal == Details
    ensures HandlerAt(v, idx) == Some(OpenEdit) ==> r.state.modal == (if v == Options(true) then Edit else s.modal)
    ensures r.state.modal != s.modal ==> HandlerAt(v, idx).Some? && !IsMutation(HandlerAt(v, idx).value)
  {
    match HandlerAt(v, idx)
    case None => Step(s, [])
    case Some(a) =>
      var flags := if ShowsLoader(v, idx) then SetFlag(s.flags, idx, true) else s.flags;
      if IsMutation(a) then
        Step(UiState(s.modal, flags), if data.Some? then [Mutation(CallFor(a, data.value.id))] else [])
      else
        Step(UiState(OpenModal(v, a, s.modal), flags), [])
  }

  /** What follows the `await` of a handler started on entry `idx`: on success
      a mutation handler toasts; on failure `ListingActions` toasts the error
      while `Options`, which has no `catch`, lets it escape; either way the
      spinner flag is cleared and nothing else changes. */
  function Settle(v: Variant, data: Option<Listing>, s: UiState, idx: int, server: Outcome): (r: Step)
    requires Valid(v, s)
    requires HandlerAt(v, idx).Some?
    ensures Valid(v, r.state)
    ensures r.state.modal == s.modal
    // flags: only slot idx may change, and it is cleared on success and on failure alike
    ensures forall i :: 0 <= i < |s.flags| && i != idx ==> r.state.flags[i] == s.flags[i]
    ensures ShowsLoader(v, idx) ==> !r.state.flags[idx]
    ensures !ShowsLoader(v, idx) ==> r.state.flags == s.flags
    // outputs
    ensures |r.outputs| <= 1
    ensures data.Some? && IsMutation(HandlerAt(v, idx).value) && server.Resolved?
      ==> r.outputs == [ToastSuccess(SuccessText(HandlerAt(v, idx).value))]
    ensures !IsMutation(HandlerAt(v, idx).value) ==> r.outputs == []
    ensures v.ListingActions? && IsMutation(HandlerAt(v, idx).value) && data.Some? && server.Rejected?
      ==> r.outputs == [ToastError(ErrorText(server.serverMessage))]
    ensures v.ListingActions? && IsMutation(HandlerAt(v, idx).value) && data.None?
      ==> r.outputs == [ToastError(FallbackError)]
    ensures v.Options? && IsMutation(HandlerAt(v, idx).value) && data.Some? && server.Rejected?
      ==> r.outputs == [Uncaught(server.serverMessage)]
    ensures v.Options? && IsMutation(HandlerAt(v, idx).value) && data.None?
      ==> r.outputs == [Uncaught(None)]
    ensures forall o :: o in r.outputs ==> !o.Mutation?
  {
    var a := HandlerAt(v, idx).value;
    var flags := if ShowsLoader(v, idx) then SetFlag(s.flags, idx, false) else s.flags;
    var outputs :=
      match Effective(data, a, server)
      case Resolved => if IsMutation(a) then [ToastSuccess(SuccessText(a))] else []
      case Rejected(m) => if v.ListingActions? then [ToastError(ErrorText(m))] else [Uncaught(m)];
    Step(UiState(s.modal, flags), outputs)
  }

  /** The modal's close callback. */
  function CloseModal(s: UiState): (r: UiState)
    ensures r.modal == Closed
    ensures r.flags == s.flags
  {
    UiState(Closed, s.flags)
  }
}
