/**
 * Interleavings of clicks, settles and modal closes as plain event sequences.
 *
 * The world pairs the component state with the handler invocations that have
 * been started and not yet settled (by entry index; two clicks on one entry
 * put that index in twice).  A settle for an index with nothing in flight is
 * ignored.
 */
module Trace {
  import opened Wrappers
  import opened Menu
  import opened Dispatch

  /** A click on entry `idx`, the settling of one handler started on `idx`,
      or the modal's close callback. */
  datatype Event = Clicked(idx: int) | Settled(idx: int, server: Outcome) | CloseRequested

  /** Component state plus the started, unsettled handler invocations. */
  datatype World = World(ui: UiState, inflight: multiset<int>)

  /** Where a sequence of events leads and everything it emitted, in order. */
  datatype Reached = Reached(world: World, outputs: seq<Output>)

  /** What every reachable world satisfies: one flag per entry, only entries
      with a handler in flight, and a raised flag only on a spinner entry that
      has an invocation in flight. */
  predicate Inv(v: Variant, w: World) {
    && Valid(v, w.ui)
    && (forall i :: i in w.inflight ==> HandlerAt(v, i).Some?)
    && (forall i :: 0 <= i < |w.ui.flags| && w.ui.flags[i] ==> RaisesFlag(v, i) && i in w.inflight)
  }

  /** The world right after mount. */
  function Start(v: Variant): (w: World)
    ensures Inv(v, w)
    ensures w.ui.modal == Closed && |w.inflight| == 0
  {
    World(Init(v), multiset{})
  }

  /** One event.  A click with a handler adds an invocation; a settle retires one. */
  function Apply(v: Variant, data: Option<Listing>, w: World, e: Event): (r: Reached)
    requires Inv(v, w)
    ensures Inv(v, r.world)
    ensures e.Clicked? && HandlerAt(v, e.idx).Some? ==> r.world.inflight == w.inflight + multiset{e.idx}
    ensures e.Clicked? && HandlerAt(v, e.idx).None? ==> r == Reached(w, [])
    ensures e.Settled? ==> r.world.inflight == w.inflight - multiset{e.idx}
    ensures e.Settled? && e.idx !in w.inflight ==> r == Reached(w, [])
    ensures e.CloseRequested? ==> r.world.ui.modal == Closed && r.world.ui.flags == w.ui.flags && r.outputs == []
    ensures !e.Clicked? ==> forall o :: o in r.outputs ==> !o.Mutation?
  {
    match e
    case Clicked(idx) =>
      var st := Click(v, data, w.ui, idx);
      Reached(World(st.state, if HandlerAt(v, idx).Some? then w.inflight + multiset{idx} else w.inflight), st.outputs)
    case Settled(idx, server) =>
      if idx in w.inflight then
        var st := Settle(v, data, w.ui, idx, server);
        Reached(World(st.state, w.inflight - multiset{idx}), st.outputs)
      else
        Reached(w, [])
    case CloseRequested =>
      Reached(World(CloseModal(w.ui), w.inflight), [])
  }

  /** A whole event sequence, left to right; outputs are concatenated in order. */
  function Run(v: Variant, data: Option<Listing>, w: World, events: seq<Event>): (r: Reached)
    requires Inv(v, w)
    ensures Inv(v, r.world)
    decreases |events|
  {
    if events == [] then Reached(w, [])
    else
      var first := Apply(v, data, w, events[0]);
      var rest := Run(v, data, first.world, events[1..]);
      Reached(rest.world, first.outputs + rest.outputs)
  }

  /** Number of mutation requests among `outputs`. */
  function CountMutations(outputs: seq<Output>): nat {
    if outputs == [] then 0
    else (if outputs[0].Mutation? then 1 else 0) + CountMutations(outputs[1..])
  }

  /** Number of clicks in `events` on an entry whose handler issues a mutation. */
  function MutationClicks(v: Variant, events: seq<Event>): nat {
    if events == [] then 0
    else
      var e := events[0];
      (if e.Clicked? && HandlerAt(v, e.idx).Some? && IsMutation(HandlerAt(v, e.idx).value) then 1 else 0)
      + MutationClicks(v, events[1..])
  }

  lemma {:induction false} CountMutationsAppend(a: seq<Output>, b: seq<Output>)
    ensures CountMutations(a + b) == CountMutations(a) + CountMutations(b)
    decreases |a|
  {
    if a == [] {
      assert a + b == b;
    } else {
      assert (a + b)[1..] == a[1..] + b;
      CountMutationsAppend(a[1..], b);
    }
  }

  lemma NoMutationsCounted(outputs: seq<Output>)
    requires forall o :: o in outputs ==> !o.Mutation?
    ensures CountMutations(outputs) == 0
    decreases |outputs|
  {
  }

  /** One mutation per click: every click on a mutation entry issues exactly
      one request, and nothing else does.  In particular a second click before
      the first settles issues a second request (there is no de-duplication).
      Without a listing the handlers fail before any request. */
  lemma {:induction false} MutationsMatchClicks(v: Variant, data: Option<Listing>, w: World, events: seq<Event>)
    requires Inv(v, w)
    ensures CountMutations(Run(v, data, w, events).outputs) == (if data.Some? then MutationClicks(v, events) else 0)
    decreases |events|
  {
    if events != [] {
      var first := Apply(v, data, w, events[0]);
      var rest := Run(v, data, first.world, events[1..]);
      MutationsMatchClicks(v, data, first.world, events[1..]);
      CountMutationsAppend(first.outputs, rest.outputs);
      if !events[0].Clicked? {
        NoMutationsCounted(first.outputs);
      } else {
        assert CountMutations(first.outputs) == |first.outputs| by {
          if first.outputs != [] {
            assert first.outputs[1..] == [];
          }
        }
      }
    }
  }

  /** Events that can change the modal: a click on a modal entry, or a close. */
  predicate TouchesModal(v: Variant, e: Event) {
    e.CloseRequested? || (e.Clicked? && HandlerAt(v, e.idx).Some? && !IsMutation(HandlerAt(v, e.idx).value))
  }

  /** Mutation clicks, settles and handler-less clicks never move the modal. */
  lemma {:induction false} ModalOnlyMovedByModalEvents(v: Variant, data: Option<Listing>, w: World, events: seq<Event>)
    requires Inv(v, w)
    requires forall k :: 0 <= k < |events| ==> !TouchesModal(v, events[k])
    ensures Run(v, data, w, events).world.ui.modal == w.ui.modal
    decreases |events|
  {
    if events != [] {
      var first := Apply(v, data, w, events[0]);
      assert !TouchesModal(v, events[0]);
      assert first.world.ui.modal == w.ui.modal;
      ModalOnlyMovedByModalEvents(v, data, first.world, events[1..]);
    }
  }

  /** A one-event run is just that event. */
  lemma RunSingle(v: Variant, data: Option<Listing>, w: World, e: Event)
    requires Inv(v, w)
    ensures Run(v, data, w, [e]) == Apply(v, data, w, e)
  {
  }

  /** Click then settle on an entry with nothing else in flight: the flag is
      raised in between exactly for spinner entries, and afterwards every flag
      and the in-flight set are back where they were, on success and failure alike. */
  lemma ClickSettleRoundTrip(v: Variant, data: Option<Listing>, w: World, idx: int, server: Outcome)
    requires Inv(v, w)
    requires HandlerAt(v, idx).Some?
    requires idx !in w.inflight
    ensures Run(v, data, w, [Clicked(idx)]).world.ui.flags[idx] == ShowsLoader(v, idx)
    ensures Run(v, data, w, [Clicked(idx), Settled(idx, server)]).world.ui.flags == w.ui.flags
    ensures Run(v, data, w, [Clicked(idx), Settled(idx, server)]).world.inflight == w.inflight
  {
    var a := Apply(v, data, w, Clicked(idx));
    var b := Apply(v, data, a.world, Settled(idx, server));
    RunSingle(v, data, w, Clicked(idx));
    RunSingle(v, data, a.world, Settled(idx, server));
    assert [Clicked(idx), Settled(idx, server)][1..] == [Settled(idx, server)];
    assert Run(v, data, w, [Clicked(idx), Settled(idx, server)]).world == b.world;
    assert b.world.ui.flags == w.ui.flags;
  }

  /** No event in `events` settles an invocation on entry `idx`. */
  predicate NoSettleOn(idx: int, events: seq<Event>) {
    forall k :: 0 <= k < |events| ==> !(events[k].Settled? && events[k].idx == idx)
  }

  /** Flags are independent: a raised flag stays raised through any clicks,
      settles and closes on other entries (and further clicks on its own entry)
      until a settle on its own entry. */
  lemma {:induction false} FlagStaysRaised(v: Variant, data: Option<Listing>, w: World, idx: int, events: seq<Event>)
    requires Inv(v, w)
    requires 0 <= idx < |w.ui.flags| && w.ui.flags[idx]
    requires NoSettleOn(idx, events)
    ensures Run(v, data, w, events).world.ui.flags[idx]
    decreases |events|
  {
    if events != [] {
      var first := Apply(v, data, w, events[0]);
      assert !(events[0].Settled? && events[0].idx == idx);
      assert first.world.ui.flags[idx];
      assert NoSettleOn(idx, events[1..]) by {
        forall k | 0 <= k < |events[1..]|
          ensures !(events[1..][k].Settled? && events[1..][k].idx == idx)
        {
          assert events[1..][k] == events[k + 1];
        }
      }
      FlagStaysRaised(v, data, first.world, idx, events[1..]);
    }
  }

  /** Hence a click on a spinner entry keeps its flag raised through every
      interleaving of other events until a settle on that entry. */
  lemma ClickRaisesUntilSettle(v: Variant, data: Option<Listing>, w: World, idx: int, events: seq<Event>)
    requires Inv(v, w)
    requires RaisesFlag(v, idx)
    requires NoSettleOn(idx, events)
    ensures Run(v, data, w, [Clicked(idx)] + events).world.ui.flags[idx]
  {
    var first := Apply(v, data, w, Clicked(idx));
    assert ([Clicked(idx)] + events)[0] == Clicked(idx);
    assert ([Clicked(idx)] + events)[1..] == events;
    FlagStaysRaised(v, data, first.world, idx, events);
  }

  /** A settled mutation click in `ListingActions` emits exactly its request and
      then its toast: the success text, or the error text derived from the server message. */
  lemma MutationClickOutputs(data: Option<Listing>, w: World, idx: int, server: Outcome)
    requires Inv(ListingActions, w)
    requires data.Some?
    requires HandlerAt(ListingActions, idx).Some? && IsMutation(HandlerAt(ListingActions, idx).value)
    ensures var a := HandlerAt(ListingActions, idx).value;
            Run(ListingActions, data, w, [Clicked(idx), Settled(idx, server)]).outputs
            == [Mutation(CallFor(a, data.value.id)),
                if server.Resolved? then ToastSuccess(SuccessText(a)) else ToastError(ErrorText(server.serverMessage))]
  {
    var a := Apply(ListingActions, data, w, Clicked(idx));
    var b := Apply(ListingActions, data, a.world, Settled(idx, server));
    RunSingle(ListingActions, data, a.world, Settled(idx, server));
    assert [Clicked(idx), Settled(idx, server)][1..] == [Settled(idx, server)];
    assert Run(ListingActions, data, w, [Clicked(idx), Settled(idx, server)]).outputs == a.outputs + b.outputs;
  }

  /** No reachable world ever shows a spinner on an entry that cannot raise
      one ("View details", "Edit", and the handler-less last entry of `Options`),
      and once nothing is in flight no spinner shows at all. */
  lemma SpinnersNeedInflight(v: Variant, data: Option<Listing>, events: seq<Event>)
    ensures var w := Run(v, data, Start(v), events).world;
            && |w.ui.flags| == |Items(v)|
            && (forall i :: 0 <= i < |w.ui.flags| && !RaisesFlag(v, i) ==> !w.ui.flags[i])
            && (|w.inflight| == 0 ==> forall i :: 0 <= i < |w.ui.flags| ==> !w.ui.flags[i])
  {
  }

  /** Two quick clicks on "Approve": two approve requests go out, and the
      first settle clears the spinner while the second request is still
      pending. */
  lemma DoubleClickQuirk(id: string)
    ensures var data := Some(Listing(id));
            && Run(ListingActions, data, Start(ListingActions), [Clicked(0), Clicked(0)]).outputs
               == [Mutation(ApproveListing(id)), Mutation(ApproveListing(id))]
            && var w := Run(ListingActions, data, Start(ListingActions), [Clicked(0), Clicked(0), Settled(0, Resolved)]).world;
               !w.ui.flags[0] && 0 in w.inflight
  {
  }

  /** In `Options`, the entry labelled "Flag" issues the delete request and the
      entry labelled "Delete" changes nothing and emits nothing. */
  lemma OptionsFlagDeletesAndDeleteIsInert(hasModalSetter: bool, data: Option<Listing>, w: World)
    requires Inv(Options(hasModalSetter), w)
    requires data.Some?
    ensures Run(Options(hasModalSetter), data, w, [Clicked(3)]).outputs == [Mutation(DeleteListing(data.value.id))]
    ensures Run(Options(hasModalSetter), data, w, [Clicked(4)]) == Reached(w, [])
  {
  }
}
