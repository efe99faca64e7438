/**
 * The map component: which lakes pass the sidebar filters, the point features
 * pushed into the `glacier-lakes` source, the loading and "no lakes match"
 * signals, the dot and pulse styling, and what a click on a dot selects.
 *
 * The lake list is a parameter everywhere, as the component's props declare it
 * (the page itself renders the map without one). The click handler is
 * registered once and looks ids up in the list of the render that registered
 * it. Ids are integers, so the handler's loose `==` is integer equality here.
 */
module MapView {
  import opened Wrappers
  import opened Text
  import opened Seqs
  import opened Officials

  /** One glacier lake record as the back end delivers it. */
  datatype LakeData = LakeData(
    id: int,
    lakeName: string,
    latitude: real,
    longitude: real,
    region: string,
    riskLevel: string,
    lakeAreaKm2: real,
    damSlopeDeg: real,
    lakeTempC: real,
    elevationM: real,
    observationDate: string,
    confidence: real,
    assessedAt: string,
    verificationStatus: string,
    verifiedById: Option<int>,
    verifiedAt: Option<string>,
    declineById: Option<int>,
    declinedAt: Option<string>,
    createdAt: string,
    uploadedBy: User,
    verifiedBy: Option<User>)

  /** The filter state the sidebar edits; `yearRange` is carried but never consulted. */
  datatype Filters = Filters(riskLevels: seq<string>, yearRange: (int, int), searchQuery: string)

  // ---------------------------------------------------------------- filter

  /** `riskLevels.some(level => level.toLowerCase() === riskLevel.toLowerCase())` */
  predicate RiskMatch(riskLevel: string, levels: seq<string>) {
    exists k :: 0 <= k < |levels| && Lower(levels[k]) == Lower(riskLevel)
  }

  /** An empty query is falsy and imposes nothing; otherwise a case-insensitive substring test. */
  predicate NameMatch(lakeName: string, query: string) {
    query == "" || Contains(Lower(lakeName), Lower(query))
  }

  predicate Matches(filters: Filters, lake: LakeData) {
    RiskMatch(lake.riskLevel, filters.riskLevels) && NameMatch(lake.lakeName, filters.searchQuery)
  }

  function FilteredLakes(lakes: seq<LakeData>, filters: Filters): seq<LakeData> {
    Filter(lakes, lake => Matches(filters, lake))
  }

  /**
   * The filtered list is the order-preserving subsequence of `lakes` made of
   * exactly the lakes whose risk level matches some filter entry ignoring case
   * and whose name contains the query ignoring case.
   */
  lemma FilteredLakesSpec(lakes: seq<LakeData>, filters: Filters)
    ensures IsSubsequence(FilteredLakes(lakes, filters), lakes)
    ensures forall lake :: lake in FilteredLakes(lakes, filters) <==>
      lake in lakes && RiskMatch(lake.riskLevel, filters.riskLevels) && NameMatch(lake.lakeName, filters.searchQuery)
  {
    FilterIsSubsequence(lakes, lake => Matches(filters, lake));
    forall lake ensures lake in FilteredLakes(lakes, filters) <==> lake in lakes && Matches(filters, lake) {
      FilterMembership(lakes, lake => Matches(filters, lake), lake);
    }
  }

  /** Filtering is done record by record: it distributes over concatenation. */
  lemma FilteredLakesConcat(a: seq<LakeData>, b: seq<LakeData>, filters: Filters)
    ensures FilteredLakes(a + b, filters) == FilteredLakes(a, filters) + FilteredLakes(b, filters)
  {
    FilterConcat(a, b, lake => Matches(filters, lake));
  }

  /** With no risk level selected nothing is shown. */
  lemma EmptyRiskLevelsShowNothing(lakes: seq<LakeData>, filters: Filters)
    requires filters.riskLevels == []
    ensures FilteredLakes(lakes, filters) == []
  {
    FilterEmptyIff(lakes, lake => Matches(filters, lake));
  }

  /** An empty search query leaves only the risk-level constraint. */
  lemma EmptyQueryFiltersByRiskOnly(lakes: seq<LakeData>, filters: Filters)
    requires filters.searchQuery == ""
    ensures FilteredLakes(lakes, filters) == Filter(lakes, (lake: LakeData) => RiskMatch(lake.riskLevel, filters.riskLevels))
  {
    FilterCongruent(lakes, lake => Matches(filters, lake), (lake: LakeData) => RiskMatch(lake.riskLevel, filters.riskLevels));
  }

  /** A non-empty query keeps exactly the risk-matching lakes whose lower-cased name has the lower-cased query at some position. */
  lemma NonEmptyQueryIsSubstringSearch(lakes: seq<LakeData>, filters: Filters, lake: LakeData)
    requires filters.searchQuery != ""
    ensures lake in FilteredLakes(lakes, filters) <==>
      lake in lakes && RiskMatch(lake.riskLevel, filters.riskLevels) &&
      exists i :: OccursAt(Lower(lake.lakeName), Lower(filters.searchQuery), i)
  {
    FilterMembership(lakes, lake => Matches(filters, lake), lake);
    ContainsIffOccurs(Lower(lake.lakeName), Lower(filters.searchQuery));
  }

  /** A lake stored as `high` passes a filter holding `HIGH`, and the other way round. */
  lemma RiskMatchIgnoresCase(riskLevel: string, levels: seq<string>, other: string)
    requires Lower(other) == Lower(riskLevel)
    ensures RiskMatch(riskLevel, levels) <==> RiskMatch(other, levels)
  {
  }

  /** Filtering a two-lake list keeps each lake according to `Matches`, in order. */
  lemma FilterTwo(a: LakeData, b: LakeData, filters: Filters)
    ensures FilteredLakes([a, b], filters) ==
      (if Matches(filters, a) then [a] else []) + (if Matches(filters, b) then [b] else [])
  {
    var p := lake => Matches(filters, lake);
    assert [a, b][1..] == [b];
    assert [b][1..] == [];
    assert Filter([b], p) == (if p(b) then [b] else []) + Filter([], p);
    assert Filter([a, b], p) == (if p(a) then [a] else []) + Filter([b], p);
  }

  lemma NameFactsOfExample()
    ensures !Contains(Lower("Imja"), Lower("ro"))
    ensures Contains(Lower("Tsho Rolpa"), Lower("ro"))
  {
    assert Lower("ro") == "ro";
    assert Lower("Imja") == "imja";
    assert Lower("Tsho Rolpa") == "tsho rolpa";
    assert "imja"[1..] == "mja" && "mja"[1..] == "ja" && "ja"[1..] == "a" && "a"[1..] == "";
    assert !Contains("", "ro");
    assert !Contains("a", "ro");
    assert !("ro" <= "ja") by { assert "ja"[0] != "ro"[0]; }
    assert !Contains("ja", "ro");
    assert !("ro" <= "mja") by { assert "mja"[0] != "ro"[0]; }
    assert !Contains("mja", "ro");
    assert !("ro" <= "imja") by { assert "imja"[0] != "ro"[0]; }
    assert !Contains("imja", "ro");
    assert OccursAt("tsho rolpa", "ro", 5);
    OccursImpliesContains("tsho rolpa", "ro", 5);
  }

  /**
   * Two lakes, Imja (HIGH) and Tsho Rolpa (LOW): the filter `HIGH` with no query
   * keeps only Imja; the filter `HIGH, LOW` with the query `ro` keeps only Tsho Rolpa.
   */
  lemma TwoLakeExample(imja: LakeData, rolpa: LakeData, years: (int, int))
    requires imja.riskLevel == "HIGH" && imja.lakeName == "Imja"
    requires rolpa.riskLevel == "LOW" && rolpa.lakeName == "Tsho Rolpa"
    ensures FilteredLakes([imja, rolpa], Filters(["HIGH"], years, "")) == [imja]
    ensures FilteredLakes([imja, rolpa], Filters(["HIGH", "LOW"], years, "ro")) == [rolpa]
  {
    var first, second := Filters(["HIGH"], years, ""), Filters(["HIGH", "LOW"], years, "ro");
    assert |Lower("LOW")| != |Lower("HIGH")|;
    assert Lower(first.riskLevels[0]) == Lower(imja.riskLevel);
    FilterTwo(imja, rolpa, first);
    NameFactsOfExample();
    assert Lower(second.riskLevels[1]) == Lower(rolpa.riskLevel);
    FilterTwo(imja, rolpa, second);
  }

  // ---------------------------------------------------------------- projection

  /** One GeoJSON point feature: its properties and `[longitude, latitude]`. */
  datatype Feature = Feature(id: int, riskLevel: string, name: string, confidence: real, coordinates: (real, real))

  function ToFeature(lake: LakeData): Feature {
    Feature(lake.id, lake.riskLevel, lake.lakeName, lake.confidence, (lake.longitude, lake.latitude))
  }

  function Project(lakes: seq<LakeData>): seq<Feature> {
    seq(|lakes|, k requires 0 <= k < |lakes| => ToFeature(lakes[k]))
  }

  /** The collection handed to `setData` after every change of the lakes or the filters. */
  function FeatureCollection(lakes: seq<LakeData>, filters: Filters): seq<Feature> {
    Project(FilteredLakes(lakes, filters))
  }

  /**
   * One feature per filtered lake, in the same order, carrying its id, risk
   * level, name and confidence and positioned at `[longitude, latitude]`.
   */
  lemma FeatureCollectionShape(lakes: seq<LakeData>, filters: Filters)
    ensures var fc, fl := FeatureCollection(lakes, filters), FilteredLakes(lakes, filters);
      |fc| == |fl| &&
      forall k :: 0 <= k < |fc| ==>
        fc[k].id == fl[k].id && fc[k].riskLevel == fl[k].riskLevel && fc[k].name == fl[k].lakeName &&
        fc[k].confidence == fl[k].confidence && fc[k].coordinates == (fl[k].longitude, fl[k].latitude)
  {
  }

  /** A feature with a given id is rendered exactly when some lake with that id passes the filters. */
  lemma FeatureIdRendered(lakes: seq<LakeData>, filters: Filters, id: int)
    ensures (exists k :: 0 <= k < |FeatureCollection(lakes, filters)| && FeatureCollection(lakes, filters)[k].id == id) <==>
      (exists lake :: lake in lakes && Matches(filters, lake) && lake.id == id)
  {
    var fc, fl := FeatureCollection(lakes, filters), FilteredLakes(lakes, filters);
    if k :| 0 <= k < |fc| && fc[k].id == id {
      assert fl[k] in fl;
      FilterMembership(lakes, lake => Matches(filters, lake), fl[k]);
    }
    if lake :| lake in lakes && Matches(filters, lake) && lake.id == id {
      FilterMembership(lakes, lake => Matches(filters, lake), lake);
      var k :| 0 <= k < |fl| && fl[k] == lake;
      assert fc[k].id == id;
    }
  }

  // ---------------------------------------------------------------- status signals

  predicate ShowsLoadingOverlay(lakes: seq<LakeData>) {
    |lakes| == 0
  }

  predicate ShowsNoMatchBanner(lakes: seq<LakeData>, filters: Filters) {
    |lakes| > 0 && |FilteredLakes(lakes, filters)| == 0
  }

  /**
   * The overlay and the banner never show together; the banner shows exactly
   * when there are lakes and none of them passes the filters; while loading the
   * source holds no feature.
   */
  lemma StatusSignals(lakes: seq<LakeData>, filters: Filters)
    ensures !(ShowsLoadingOverlay(lakes) && ShowsNoMatchBanner(lakes, filters))
    ensures ShowsNoMatchBanner(lakes, filters) <==>
      |lakes| > 0 && forall k :: 0 <= k < |lakes| ==> !Matches(filters, lakes[k])
    ensures ShowsLoadingOverlay(lakes) ==> FeatureCollection(lakes, filters) == []
  {
    FilterEmptyIff(lakes, lake => Matches(filters, lake));
  }

  // ---------------------------------------------------------------- styling

  /** The `match` on `riskLevel` in the dot layer's `circle-color` (exact, case-sensitive). */
  function CircleColor(riskLevel: string): string {
    if riskLevel == "HIGH" then "#ff3b30"
    else if riskLevel == "MEDIUM" then "#ff9500"
    else if riskLevel == "LOW" then "#00c2ff"
    else "#999999"
  }

  /** The pulse layer's filter `['==', ['get', 'riskLevel'], 'HIGH']`. */
  predicate Pulses(f: Feature) {
    f.riskLevel == "HIGH"
  }

  function PulseFeatures(features: seq<Feature>): seq<Feature> {
    Filter(features, Pulses)
  }

  /** Only the three exact upper-case levels get a colour of their own. */
  lemma ColorFallback(riskLevel: string)
    ensures CircleColor(riskLevel) == "#999999" <==> riskLevel != "HIGH" && riskLevel != "MEDIUM" && riskLevel != "LOW"
  {
  }

  /** The pulse layer shows exactly the rendered features of lakes stored as exactly `HIGH`. */
  lemma PulseFeaturesSpec(lakes: seq<LakeData>, filters: Filters, f: Feature)
    ensures f in PulseFeatures(FeatureCollection(lakes, filters)) <==>
      f in FeatureCollection(lakes, filters) && f.riskLevel == "HIGH"
    ensures IsSubsequence(PulseFeatures(FeatureCollection(lakes, filters)), FeatureCollection(lakes, filters))
  {
    FilterMembership(FeatureCollection(lakes, filters), Pulses, f);
    FilterIsSubsequence(FeatureCollection(lakes, filters), Pulses);
  }

  /** A lake stored as `high` passes a filter holding `HIGH`, yet renders grey and never pulses. */
  lemma LowercaseHighIsShownGreyWithoutPulse(lakes: seq<LakeData>, filters: Filters, k: nat)
    requires k < |lakes| && lakes[k].riskLevel == "high"
    requires "HIGH" in filters.riskLevels && filters.searchQuery == ""
    ensures lakes[k] in FilteredLakes(lakes, filters)
    ensures CircleColor(lakes[k].riskLevel) == "#999999"
    ensures ToFeature(lakes[k]) in FeatureCollection(lakes, filters)
    ensures ToFeature(lakes[k]) !in PulseFeatures(FeatureCollection(lakes, filters))
  {
    var j :| 0 <= j < |filters.riskLevels| && filters.riskLevels[j] == "HIGH";
    assert Lower(filters.riskLevels[j]) == "high" == Lower(lakes[k].riskLevel);
    FilterMembership(lakes, lake => Matches(filters, lake), lakes[k]);
    var fl := FilteredLakes(lakes, filters);
    var i :| 0 <= i < |fl| && fl[i] == lakes[k];
    assert FeatureCollection(lakes, filters)[i] == ToFeature(lakes[k]);
    FilterMembership(FeatureCollection(lakes, filters), Pulses, ToFeature(lakes[k]));
  }

  // ---------------------------------------------------------------- click resolution

  /** The properties of the clicked feature; the two optional ones are read with `||`. */
  datatype FeatureProps = FeatureProps(id: int, riskLevel: Option<string>, confidence: Option<real>)

  function PropsOf(f: Feature): FeatureProps {
    FeatureProps(f.id, Some(f.riskLevel), Some(f.confidence))
  }

  /** A `flyTo` call: centre `[longitude, latitude]`, zoom and duration in milliseconds. */
  datatype Flight = Flight(center: (real, real), zoom: int, durationMs: int)

  /** `Ignored`: `onLakeSelect` is not called. `Selected`: it is called with `lake`, and `flight` says whether the map flies. */
  datatype ClickOutcome = Ignored | Selected(lake: LakeData, flight: Option<Flight>)

  /** `lakes.find(l => l.id == id)`, as an index. */
  function FindById(lakes: seq<LakeData>, id: int): (r: Option<nat>)
    ensures r.Some? ==>
      r.value < |lakes| && lakes[r.value].id == id && forall j :: 0 <= j < r.value ==> lakes[j].id != id
    ensures r.None? ==> forall j :: 0 <= j < |lakes| ==> lakes[j].id != id
  {
    if lakes == [] then None
    else if lakes[0].id == id then Some(0)
    else match FindById(lakes[1..], id)
      case None => None
      case Some(i) => Some(i + 1)
  }

  /** `feature.properties?.riskLevel || 'UNKNOWN'` */
  function StubRiskLevel(riskLevel: Option<string>): string {
    match riskLevel
    case Some(s) => if s == "" then "UNKNOWN" else s
    case None => "UNKNOWN"
  }

  const NoUploader := User(0, "", "", "", "", None)

  /** The minimal record built for a clicked id that is not in the lake list. */
  function StubLake(props: FeatureProps): LakeData {
    LakeData(
      props.id, "", 0.0, 0.0, "", StubRiskLevel(props.riskLevel), 0.0, 0.0, 0.0, 0.0, "",
      props.confidence.GetOr(0.0), "", "", None, None, None, None, "", NoUploader, None)
  }

  /** Every field other than id, risk level and confidence is empty, zero or null. */
  predicate IsBlankStub(lake: LakeData) {
    && lake.lakeName == "" && lake.latitude == 0.0 && lake.longitude == 0.0 && lake.region == ""
    && lake.lakeAreaKm2 == 0.0 && lake.damSlopeDeg == 0.0 && lake.lakeTempC == 0.0 && lake.elevationM == 0.0
    && lake.observationDate == "" && lake.assessedAt == "" && lake.verificationStatus == ""
    && lake.verifiedById.None? && lake.verifiedAt.None? && lake.declineById.None? && lake.declinedAt.None?
    && lake.createdAt == "" && lake.uploadedBy == NoUploader && lake.verifiedBy.None?
  }

  /**
   * The click handler's decision over the features under the cursor (topmost
   * first) and the lake list it looks ids up in.
   */
  function ResolveClick(hits: seq<FeatureProps>, lakes: seq<LakeData>): (r: ClickOutcome)
    ensures hits == [] <==> r.Ignored?
    ensures r.Selected? ==> r.lake.id == hits[0].id
    ensures r.Selected? ==> (r.flight.Some? <==> exists k :: 0 <= k < |lakes| && lakes[k].id == hits[0].id)
    ensures r.Selected? && r.flight.Some? ==>
      (exists k :: 0 <= k < |lakes| && lakes[k] == r.lake && forall j :: 0 <= j < k ==> lakes[j].id != r.lake.id) &&
      r.flight.value == Flight((r.lake.longitude, r.lake.latitude), 11, 1000)
    ensures r.Selected? && r.flight.None? ==>
      IsBlankStub(r.lake) && r.lake.riskLevel == StubRiskLevel(hits[0].riskLevel) &&
      r.lake.confidence == hits[0].confidence.GetOr(0.0)
  {
    if hits == [] then Ignored
    else match FindById(lakes, hits[0].id)
      case Some(k) =>
        Selected(lakes[k], Some(Flight((lakes[k].longitude, lakes[k].latitude), 11, 1000)))
      case None =>
        Selected(StubLake(hits[0]), None)
  }

  predicate UniqueIds(lakes: seq<LakeData>) {
    forall i, j :: 0 <= i < j < |lakes| ==> lakes[i].id != lakes[j].id
  }

  /**
   * Clicking a rendered feature while the lookup list is the list it was
   * rendered from selects a full record with the feature's id and flies to it;
   * with unique ids that record is the very lake the feature came from.
   */
  lemma ClickOnRenderedFeatureSelectsItsLake(lakes: seq<LakeData>, filters: Filters, k: nat)
    requires k < |FeatureCollection(lakes, filters)|
    ensures var r := ResolveClick([PropsOf(FeatureCollection(lakes, filters)[k])], lakes);
      r.Selected? && r.flight.Some? && r.lake.id == FeatureCollection(lakes, filters)[k].id &&
      (UniqueIds(lakes) ==> r.lake == FilteredLakes(lakes, filters)[k])
  {
    var fl := FilteredLakes(lakes, filters);
    var lake := fl[k];
    FilterMembership(lakes, lake => Matches(filters, lake), lake);
    var b :| 0 <= b < |lakes| && lakes[b] == lake;
    var r := ResolveClick([PropsOf(FeatureCollection(lakes, filters)[k])], lakes);
    assert r.flight.Some?;
    if UniqueIds(lakes) {
      var a :| 0 <= a < |lakes| && lakes[a] == r.lake;
      assert a == b;
    }
  }

  /**
   * When the list the handler looks ids up in is empty, every click on a
   * rendered feature selects a stub carrying the feature's id, risk level and
   * confidence, and the map does not move.
   */
  lemma ClickWithEmptyLookupSelectsStub(features: seq<Feature>, k: nat)
    requires k < |features| && features[k].riskLevel != ""
    ensures ResolveClick([PropsOf(features[k])], []) ==
      Selected(StubLake(PropsOf(features[k])), None)
    ensures StubLake(PropsOf(features[k])).riskLevel == features[k].riskLevel
    ensures StubLake(PropsOf(features[k])).confidence == features[k].confidence
  {
  }

  // ---------------------------------------------------------------- the map instance

  /**
   * What the component does to its map: the `glacier-lakes` source (present
   * after the map's `load` event), the features last passed to `setData`, and
   * the `flyTo` calls issued so far.
   */
  class MapSurface {
    var sourceLoaded: bool
    var features: seq<Feature>
    var flights: seq<Flight>

    constructor ()
      ensures !sourceLoaded && features == [] && flights == []
    {
      sourceLoaded := false;
      features := [];
      flights := [];
    }

    /** The `load` handler adds the source with an empty feature collection. */
    method Load()
      modifies this
      ensures sourceLoaded && features == [] && flights == old(flights)
    {
      sourceLoaded := true;
      features := [];
    }

    /**
     * The data effect: when the source exists, the whole collection is replaced
     * by one `setData` with the features of the filtered lakes; what was there
     * before plays no part. Before `load` the effect returns early.
     */
    method SyncData(lakes: seq<LakeData>, filters: Filters)
      modifies this
      ensures sourceLoaded == old(sourceLoaded) && flights == old(flights)
      ensures features == if sourceLoaded then FeatureCollection(lakes, filters) else old(features)
    {
      if sourceLoaded {
        features := FeatureCollection(lakes, filters);
      }
    }

    /**
     * A click on the dot layer (registered inside `load`): returns the record
     * passed to `onLakeSelect`, or `None` when there was no feature, and records
     * the `flyTo` issued for a record found in `lakes`.
     */
    method Click(hits: seq<FeatureProps>, lakes: seq<LakeData>) returns (selected: Option<LakeData>)
      requires sourceLoaded
      modifies this
      ensures sourceLoaded == old(sourceLoaded) && features == old(features)
      ensures selected == match ResolveClick(hits, lakes)
        case Ignored => None
        case Selected(lake, _) => Some(lake)
      ensures flights == match ResolveClick(hits, lakes)
        case Selected(_, Some(flight)) => old(flights) + [flight]
        case _ => old(flights)
    {
      var outcome := ResolveClick(hits, lakes);
      match outcome {
        case Ignored =>
          selected := None;
        case Selected(lake, flight) =>
          selected := Some(lake);
          if flight.Some? {
            flights := flights + [flight.value];
          }
      }
    }

    /** The effect's cleanup: `map.remove()`; later data effects find no source. */
    method Remove()
      modifies this
      ensures !sourceLoaded && features == old(features) && flights == old(flights)
    {
      sourceLoaded := false;
    }
  }
}
