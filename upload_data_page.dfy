/**
 * The upload page: the location search box with its suggestion dropdown and
 * single current abort controller, the four lake measurements, and the
 * payload sent on submit.
 */
module UploadDataPage {
  import opened Wrappers

  /** A geocoding result; the optional fields may be absent from the reply. */
  datatype Place = Place(
    placeId: string,
    lat: real,
    lon: real,
    formatted: string,
    addressLine1: Option<string>,
    addressLine2: Option<string>,
    resultType: Option<string>,
    rankConfidence: Option<real>)

  datatype Measurements = Measurements(lakeAreaKm2: real, damSlopeDeg: real, lakeTempC: real, elevationM: real)

  const NoMeasurements := Measurements(0.0, 0.0, 0.0, 0.0)

  datatype Payload = Payload(
    lakeName: string,
    latitude: real,
    longitude: real,
    region: string,
    lakeAreaKm2: real,
    damSlopeDeg: real,
    lakeTempC: real,
    elevationM: real)

  /** `address_line2 || 'Unknown'`: an absent or empty second address line gives `Unknown`. */
  function RegionOf(place: Place): (r: string)
    ensures r != ""
    ensures place.addressLine2.Some? && place.addressLine2.value != "" ==> r == place.addressLine2.value
    ensures place.addressLine2.None? || place.addressLine2.value == "" ==> r == "Unknown"
  {
    match place.addressLine2
    case Some(line) => if line != "" then line else "Unknown"
    case None => "Unknown"
  }

  /** The body of the upload request for the selected place and the entered measurements. */
  function PayloadFor(place: Place, m: Measurements): (r: Payload)
    ensures r.lakeName == place.formatted && r.latitude == place.lat && r.longitude == place.lon
    ensures r.region == RegionOf(place) && r.region != ""
    ensures Measurements(r.lakeAreaKm2, r.damSlopeDeg, r.lakeTempC, r.elevationM) == m
  {
    Payload(place.formatted, place.lat, place.lon, RegionOf(place),
            m.lakeAreaKm2, m.damSlopeDeg, m.lakeTempC, m.elevationM)
  }

  /** Two places that differ only in what the payload does not carry give the same payload. */
  lemma PayloadIgnoresDisplayFields(a: Place, b: Place, m: Measurements)
    requires a.formatted == b.formatted && a.lat == b.lat && a.lon == b.lon
    requires RegionOf(a) == RegionOf(b)
    ensures PayloadFor(a, m) == PayloadFor(b, m)
  {
  }

  /** `isFormValid`: a place has been picked. */
  predicate IsFormValid(selected: Option<Place>) {
    selected.Some?
  }

  /** The submit button is disabled without a place and while an upload runs. */
  predicate SubmitEnabled(selected: Option<Place>, isSubmitting: bool) {
    IsFormValid(selected) && !isSubmitting
  }

  /** The button is disabled without a place and while an upload runs; an enabled one always has a payload to send. */
  lemma SubmitDisabledCases(selected: Option<Place>, isSubmitting: bool, m: Measurements)
    ensures selected.None? ==> !SubmitEnabled(selected, isSubmitting)
    ensures isSubmitting ==> !SubmitEnabled(selected, isSubmitting)
    ensures SubmitEnabled(selected, isSubmitting) ==> PayloadFor(selected.value, m).lakeName == selected.value.formatted
  {
  }

  /** One row of the dropdown: `address_line1 ?? formatted` over `address_line2`. */
  datatype Choice = Choice(title: string, subtitle: Option<string>)

  function ChoiceOf(place: Place): Choice {
    Choice(place.addressLine1.GetOr(place.formatted), place.addressLine2)
  }

  datatype Dropdown = Hidden | SearchingNotice | NoLocationsNotice | Choices(items: seq<Choice>)

  /**
   * What the dropdown under the search box shows: nothing once a place is
   * picked or before the box is used, a notice while searching or when
   * nothing was found, else one row per suggestion in order.
   */
  function DropdownView(show: bool, selected: Option<Place>, searching: bool, suggestions: seq<Place>): (r: Dropdown)
    ensures r.Hidden? <==> !show || selected.Some?
    ensures r.SearchingNotice? <==> show && selected.None? && searching
    ensures r.NoLocationsNotice? <==> show && selected.None? && !searching && suggestions == []
    ensures r.Choices? ==> |r.items| == |suggestions| > 0
    ensures r.Choices? ==> forall k :: 0 <= k < |suggestions| ==> r.items[k] == ChoiceOf(suggestions[k])
  {
    if !show || selected.Some? then Hidden
    else if searching then SearchingNotice
    else if |suggestions| == 0 then NoLocationsNotice
    else Choices(seq(|suggestions|, k requires 0 <= k < |suggestions| => ChoiceOf(suggestions[k])))
  }

  /** How a search request ends: with a parsed reply (`results` possibly absent), or rejected. */
  datatype SearchOutcome = Replied(results: Option<seq<Place>>) | Rejected

  /**
   * The form's state. Requests are numbered in the order they are issued: the
   * stored abort controller is the number of the current request, `queries`
   * holds the text each request searched for, and `aborted` and `settled`
   * record which requests were aborted and which have finished.
   */
  class LocationForm {
    var locationQuery: string
    var suggestions: seq<Place>
    var selectedLocation: Option<Place>
    var showSuggestions: bool
    var isSearching: bool
    var isSubmitting: bool
    var submitSuccess: bool
    var measurements: Measurements
    var controller: Option<nat>
    var queries: seq<string>
    var aborted: set<nat>
    var settled: set<nat>

    /**
     * The controller, once one exists, belongs to the latest request and is
     * not aborted; every earlier request has been aborted. So at most one
     * request is live.
     */
    ghost predicate Valid()
      reads this
    {
      && (controller.Some? <==> |queries| > 0)
      && (controller.Some? ==> controller.value == |queries| - 1 && controller.value !in aborted)
      && (forall c :: 0 <= c < |queries| - 1 ==> c in aborted)
      && (forall c :: c in aborted ==> c < |queries|)
      && (forall c :: c in settled ==> c < |queries|)
    }

    /** The one request that may still write suggestions. */
    lemma AtMostOneLiveRequest(c: nat, d: nat)
      requires Valid()
      requires c < |queries| && d < |queries| && c !in aborted && d !in aborted
      ensures c == d && controller == Some(c)
    {
    }

    /** The dropdown as currently rendered. */
    function View(): Dropdown
      reads this
    {
      DropdownView(showSuggestions, selectedLocation, isSearching, suggestions)
    }

    constructor ()
      ensures Valid()
      ensures locationQuery == "" && suggestions == [] && selectedLocation.None?
      ensures !showSuggestions && !isSearching && !isSubmitting && !submitSuccess
      ensures measurements == NoMeasurements
      ensures controller.None? && queries == [] && aborted == {} && settled == {}
    {
      locationQuery := "";
      suggestions := [];
      selectedLocation := None;
      showSuggestions := false;
      isSearching := false;
      isSubmitting := false;
      submitSuccess := false;
      measurements := NoMeasurements;
      controller := None;
      queries := [];
      aborted := {};
      settled := {};
    }

    /**
     * `handleLocationInputChange`. The text is taken and the selection
     * dropped. Under three characters the suggestions are emptied and no
     * request is issued or aborted. Otherwise the current request is aborted
     * and a new one, searching for `value`, becomes current.
     */
    method InputChange(value: string) returns (request: Option<nat>)
      requires Valid()
      modifies this
      ensures Valid()
      ensures locationQuery == value && selectedLocation.None?
      ensures |value| < 3 ==>
        && request.None? && suggestions == []
        && controller == old(controller) && queries == old(queries) && aborted == old(aborted)
        && showSuggestions == old(showSuggestions) && isSearching == old(isSearching)
      ensures |value| >= 3 ==>
        && request == Some(|old(queries)|) && controller == request
        && queries == old(queries) + [value]
        && aborted == old(aborted) + (if old(controller).Some? then {old(controller).value} else {})
        && showSuggestions && isSearching && suggestions == old(suggestions)
      ensures settled == old(settled) && measurements == old(measurements)
      ensures isSubmitting == old(isSubmitting) && submitSuccess == old(submitSuccess)
    {
      locationQuery := value;
      selectedLocation := None;
      if |value| < 3 {
        suggestions := [];
        return None;
      }
      showSuggestions := true;
      if controller.Some? {
        aborted := aborted + {controller.value};
      }
      controller := Some(|queries|);
      queries := queries + [value];
      isSearching := true;
      request := controller;
    }

    /**
     * Request `c` finishes. An aborted request ends rejected, so only the
     * replies of a request never aborted reach the suggestions (a reply
     * without `results` gives none); `isSearching` is cleared by every
     * request, stale ones included.
     */
    method RequestSettled(c: nat, outcome: SearchOutcome)
      requires Valid() && c < |queries| && c !in settled
      modifies this
      ensures Valid()
      ensures settled == old(settled) + {c} && !isSearching
      ensures suggestions ==
        if c !in aborted && outcome.Replied? then outcome.results.GetOr([]) else old(suggestions)
      ensures c in aborted ==> suggestions == old(suggestions)
      ensures locationQuery == old(locationQuery) && selectedLocation == old(selectedLocation)
      ensures showSuggestions == old(showSuggestions) && measurements == old(measurements)
      ensures controller == old(controller) && queries == old(queries) && aborted == old(aborted)
      ensures isSubmitting == old(isSubmitting) && submitSuccess == old(submitSuccess)
    {
      if c !in aborted && outcome.Replied? {
        suggestions := outcome.results.GetOr([]);
      }
      settled := settled + {c};
      isSearching := false;
    }

    /** Focusing the box reopens the dropdown. */
    method FocusInput()
      modifies this
      ensures showSuggestions
      ensures locationQuery == old(locationQuery) && suggestions == old(suggestions)
      ensures selectedLocation == old(selectedLocation) && isSearching == old(isSearching)
      ensures measurements == old(measurements) && controller == old(controller)
      ensures queries == old(queries) && aborted == old(aborted) && settled == old(settled)
      ensures isSubmitting == old(isSubmitting) && submitSuccess == old(submitSuccess)
    {
      showSuggestions := true;
    }

    /** `handleLocationSelect`: the place is picked, its address fills the box and the dropdown closes. */
    method SelectLocation(place: Place)
      modifies this
      ensures selectedLocation == Some(place) && locationQuery == place.formatted
      ensures suggestions == [] && !showSuggestions && View() == Hidden
      ensures IsFormValid(selectedLocation)
      ensures isSearching == old(isSearching) && measurements == old(measurements)
      ensures controller == old(controller) && queries == old(queries)
      ensures aborted == old(aborted) && settled == old(settled)
      ensures isSubmitting == old(isSubmitting) && submitSuccess == old(submitSuccess)
    {
      selectedLocation := Some(place);
      locationQuery := place.formatted;
      suggestions := [];
      showSuggestions := false;
    }

    /** The four number inputs, already converted to numbers. */
    method EditMeasurements(m: Measurements)
      modifies this
      ensures measurements == m
      ensures locationQuery == old(locationQuery) && suggestions == old(suggestions)
      ensures selectedLocation == old(selectedLocation) && showSuggestions == old(showSuggestions)
      ensures isSearching == old(isSearching) && controller == old(controller)
      ensures queries == old(queries) && aborted == old(aborted) && settled == old(settled)
      ensures isSubmitting == old(isSubmitting) && submitSuccess == old(submitSuccess)
    {
      measurements := m;
    }

    /**
     * `handleSubmit` up to its request: without a place nothing happens;
     * otherwise the payload for the place and measurements is sent and the
     * form is submitting.
     */
    method Submit() returns (payload: Option<Payload>)
      modifies this
      ensures payload.Some? <==> IsFormValid(old(selectedLocation))
      ensures payload.Some? ==> payload.value == PayloadFor(old(selectedLocation).value, measurements)
      ensures isSubmitting == (payload.Some? || old(isSubmitting))
      ensures locationQuery == old(locationQuery) && suggestions == old(suggestions)
      ensures selectedLocation == old(selectedLocation) && showSuggestions == old(showSuggestions)
      ensures isSearching == old(isSearching) && measurements == old(measurements)
      ensures controller == old(controller) && queries == old(queries)
      ensures aborted == old(aborted) && settled == old(settled) && submitSuccess == old(submitSuccess)
    {
      if selectedLocation.None? {
        return None;
      }
      payload := Some(PayloadFor(selectedLocation.value, measurements));
      isSubmitting := true;
    }

    /** The upload request settles: success is remembered, and submitting ends either way. */
    method SubmitSettled(success: bool)
      modifies this
      ensures !isSubmitting && submitSuccess == (success || old(submitSuccess))
      ensures locationQuery == old(locationQuery) && suggestions == old(suggestions)
      ensures selectedLocation == old(selectedLocation) && showSuggestions == old(showSuggestions)
      ensures isSearching == old(isSearching) && measurements == old(measurements)
      ensures controller == old(controller) && queries == old(queries)
      ensures aborted == old(aborted) && settled == old(settled)
    {
      if success {
        submitSuccess := true;
      }
      isSubmitting := false;
    }
  }

  /**
   * Typing `Imja`, then cutting it to `Im`, leaves the `Imja` request live: when
   * it replies, its results fill the suggestions of the shortened query and
   * the dropdown lists them.
   */
  method ShortenedQueryShowsOlderResults(place: Place) returns (shown: Dropdown, query: string)
    ensures query == "Im"
    ensures shown == Choices([ChoiceOf(place)])
  {
    var form := new LocationForm();
    var request := form.InputChange("Imja");
    var none := form.InputChange("Im");
    assert none.None? && request == Some(0) && form.controller == Some(0);
    form.RequestSettled(0, Replied(Some([place])));
    shown := form.View();
    query := form.locationQuery;
  }

  /** A stale request that replies after a newer one was issued leaves the suggestions alone. */
  method StaleReplyIsDiscarded(older: Place, newer: Place) returns (suggestions: seq<Place>)
    ensures suggestions == [newer]
  {
    var form := new LocationForm();
    var first := form.InputChange("Imja");
    var second := form.InputChange("Imja Tsho");
    assert first == Some(0) && second == Some(1) && 0 in form.aborted;
    form.RequestSettled(1, Replied(Some([newer])));
    form.RequestSettled(0, Replied(Some([older])));
    suggestions := form.suggestions;
  }
}
