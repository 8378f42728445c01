/**
 * The lazily enabled details query of `ListingActions` and the record the
 * open modal shows.
 */
module Fetch {
  import opened Wrappers
  import opened Menu
  import opened Dispatch
  import opened Trace

  /** The id the details query is keyed by: `data?.id || ""`. */
  function FetchKey(data: Option<Listing>): (k: string)
    ensures data.None? ==> k == ""
    ensures data.Some? ==> k == data.value.id
  {
    if data.Some? && data.value.id != "" then data.value.id else ""
  }

  /** The query runs only for a listing with a truthy id while the details modal is open. */
  predicate FetchEnabled(data: Option<Listing>, modal: Modal) {
    data.Some? && data.value.id != "" && modal == Details
  }

  /** The record handed to the details view or edit form: `listingInfo || data`,
      the fetched record once present, otherwise the summary passed in. */
  function Displayed<R>(fetched: Option<R>, summary: Option<R>): (r: Option<R>)
    ensures fetched.Some? ==> r == fetched
    ensures fetched.None? ==> r == summary
    ensures r.Some? <==> fetched.Some? || summary.Some?
  {
    if fetched.Some? then fetched else summary
  }

  /** The enable predicate is exactly "a truthy key and the details modal open". */
  lemma FetchEnabledIffKeyAndDetails(data: Option<Listing>, modal: Modal)
    ensures FetchEnabled(data, modal) <==> FetchKey(data) != "" && modal == Details
  {
  }

  /** In `ListingActions`, "View details" starts the query for a listing with
      an id, and closing the modal stops it again. */
  lemma ViewDetailsTogglesFetch(data: Option<Listing>, w: World)
    requires Inv(ListingActions, w)
    requires data.Some? && data.value.id != ""
    ensures FetchEnabled(data, Run(ListingActions, data, w, [Clicked(2)]).world.ui.modal)
    ensures !FetchEnabled(data, Run(ListingActions, data, w, [Clicked(2), CloseRequested]).world.ui.modal)
  {
  }

  /** `Options` can only ever open the edit modal: starting from a modal that
      is not the details view, no sequence of its events opens the details view. */
  lemma {:induction false} OptionsNeverOpensDetails(hasModalSetter: bool, data: Option<Listing>, w: World, events: seq<Event>)
    requires Inv(Options(hasModalSetter), w)
    requires w.ui.modal != Details
    ensures Run(Options(hasModalSetter), data, w, events).world.ui.modal != Details
    decreases |events|
  {
    if events != [] {
      var first := Apply(Options(hasModalSetter), data, w, events[0]);
      assert first.world.ui.modal != Details;
      OptionsNeverOpensDetails(hasModalSetter, data, first.world, events[1..]);
    }
  }

  /** Hence `Options` alone never enables the details query. */
  lemma OptionsNeverEnablesFetch(hasModalSetter: bool, data: Option<Listing>, w: World, events: seq<Event>)
    requires Inv(Options(hasModalSetter), w)
    requires w.ui.modal != Details
    ensures !FetchEnabled(data, Run(Options(hasModalSetter), data, w, events).world.ui.modal)
  {
    OptionsNeverOpensDetails(hasModalSetter, data, w, events);
  }

  /** The modal after each event of a run, in order. */
  function ModalsAlong(v: Variant, data: Option<Listing>, w: World, events: seq<Event>): (ms: seq<Modal>)
    requires Inv(v, w)
    ensures |ms| == |events|
    decreases |events|
  {
    if events == [] then []
    else
      var first := Apply(v, data, w, events[0]);
      [first.world.ui.modal] + ModalsAlong(v, data, first.world, events[1..])
  }

  /** The last modal along a run is the modal the run ends in. */
  lemma {:induction false} ModalsAlongLast(v: Variant, data: Option<Listing>, w: World, events: seq<Event>)
    requires Inv(v, w)
    requires events != []
    ensures ModalsAlong(v, data, w, events)[|events| - 1] == Run(v, data, w, events).world.ui.modal
    decreases |events|
  {
    var first := Apply(v, data, w, events[0]);
    var rest := events[1..];
    assert ModalsAlong(v, data, w, events) == [first.world.ui.modal] + ModalsAlong(v, data, first.world, rest);
    assert Run(v, data, w, events).world == Run(v, data, first.world, rest).world;
    if rest != [] {
      ModalsAlongLast(v, data, first.world, rest);
    }
  }

  /** The query's cached record after a run whose modal values were `modals`.
      `answers[k]` is what the server has delivered by step k, if anything.
      The query starts fetching only once it has been enabled.  After that,
      answers are kept even when the modal has closed again, because there is
      no cancellation and the cache outlives the modal. */
  function Cached<R>(data: Option<Listing>, modals: seq<Modal>, answers: seq<Option<R>>, started: bool, cache: Option<R>): Option<R>
    requires |answers| == |modals|
    decreases |modals|
  {
    if modals == [] then cache
    else
      var started' := started || FetchEnabled(data, modals[0]);
      Cached(data, modals[1..], answers[1..], started', if started' && answers[0].Some? then answers[0] else cache)
  }

  /** A query that was never enabled never fetches, so its cache is untouched. */
  lemma {:induction false} CachedNeedsEnable<R>(data: Option<Listing>, modals: seq<Modal>, answers: seq<Option<R>>, cache: Option<R>)
    requires |answers| == |modals|
    requires forall k :: 0 <= k < |modals| ==> !FetchEnabled(data, modals[k])
    ensures Cached(data, modals, answers, false, cache) == cache
    decreases |modals|
  {
    if modals != [] {
      assert !FetchEnabled(data, modals[0]);
      CachedNeedsEnable(data, modals[1..], answers[1..], cache);
    }
  }

  /** The cached record is the initial one or one the server delivered. */
  lemma {:induction false} CachedIsAnAnswer<R>(data: Option<Listing>, modals: seq<Modal>, answers: seq<Option<R>>, started: bool, cache: Option<R>)
    requires |answers| == |modals|
    ensures var c := Cached(data, modals, answers, started, cache);
            c == cache || (c.Some? && c in answers)
    decreases |modals|
  {
    if modals != [] {
      var started' := started || FetchEnabled(data, modals[0]);
      var next := if started' && answers[0].Some? then answers[0] else cache;
      CachedIsAnAnswer(data, modals[1..], answers[1..], started', next);
      var c := Cached(data, modals[1..], answers[1..], started', next);
      assert c == next || (c.Some? && c in answers[1..]);
    }
  }

  /** In `ListingActions`, a run from mount without a "View details" click
      never opens the details view. */
  lemma {:induction false} NoDetailsWithoutViewClick(data: Option<Listing>, w: World, events: seq<Event>)
    requires Inv(ListingActions, w)
    requires w.ui.modal != Details
    requires forall k :: 0 <= k < |events| ==> events[k] != Clicked(2)
    ensures forall k :: 0 <= k < |events| ==> ModalsAlong(ListingActions, data, w, events)[k] != Details
    decreases |events|
  {
    if events != [] {
      var first := Apply(ListingActions, data, w, events[0]);
      assert events[0] != Clicked(2);
      assert first.world.ui.modal != Details;
      NoDetailsWithoutViewClick(data, first.world, events[1..]);
      var ms := ModalsAlong(ListingActions, data, w, events);
      assert ms == [first.world.ui.modal] + ModalsAlong(ListingActions, data, first.world, events[1..]);
      forall k | 0 <= k < |events|
        ensures ms[k] != Details
      {
        if k > 0 {
          assert events[1..][k - 1] == events[k];
        }
      }
    }
  }

  /** Hence, until "View details" is clicked, the details query never runs and
      the modal's record is the summary passed in. */
  lemma ShowsSummaryUntilViewDetails<R>(data: Option<Listing>, events: seq<Event>, answers: seq<Option<R>>, summary: Option<R>)
    requires |answers| == |events|
    requires forall k :: 0 <= k < |events| ==> events[k] != Clicked(2)
    ensures var modals := ModalsAlong(ListingActions, data, Start(ListingActions), events);
            Displayed(Cached(data, modals, answers, false, None), summary) == summary
  {
    var modals := ModalsAlong(ListingActions, data, Start(ListingActions), events);
    NoDetailsWithoutViewClick(data, Start(ListingActions), events);
    CachedNeedsEnable(data, modals, answers, None);
  }

  /** Once "View details" has enabled the query for a listing with an id, a
      delivered record replaces whatever the modal showed before. */
  lemma ShowsFetchedAfterViewDetails<R>(data: Option<Listing>, w: World, record: R, started: bool, cache: Option<R>, summary: Option<R>)
    requires Inv(ListingActions, w)
    requires data.Some? && data.value.id != ""
    ensures var modals := ModalsAlong(ListingActions, data, w, [Clicked(2)]);
            Displayed(Cached(data, modals, [Some(record)], started, cache), summary) == Some(record)
  {
  }
}
