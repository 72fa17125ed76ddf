/**
 The cascading location form: four dependent selections (province, city,
 district, neighbourhood) over a region options tree, four free scalar
 inputs, the choice lists derived from the tree, and the snapshot handed
 to the consumer.
 */
module LocationForm {
  import opened Wrappers

  /** One level of the tree: a JSON object as its (key, value) pairs in `Object.keys` order. */
  type Level<V> = seq<(string, V)>

  /** province -> city -> district -> list of neighbourhoods */
  type OptionsTree = Level<Level<Level<seq<string>>>>

  /** `Object.keys(level)` */
  function Keys<V>(l: Level<V>): (ks: seq<string>)
    ensures |ks| == |l| && forall i :: 0 <= i < |l| ==> ks[i] == l[i].0
  {
    if l == [] then [] else [l[0].0] + Keys(l[1..])
  }

  /** `level[k]`: the value of the (first) entry with key `k`, or `None` (`undefined`). */
  function Lookup<V>(l: Level<V>, k: string): (r: Option<V>)
    ensures r.None? <==> k !in Keys(l)
    ensures r.Some? ==> (k, r.value) in l
  {
    if l == [] then None
    else if l[0].0 == k then Some(l[0].1)
    else Lookup(l[1..], k)
  }

  /** A lookup returns the value of the first pair with that key. */
  lemma {:induction false} LookupFindsFirst<V>(l: Level<V>, k: string, i: nat)
    requires i < |l| && l[i].0 == k
    requires forall j :: 0 <= j < i ==> l[j].0 != k
    ensures Lookup(l, k) == Some(l[i].1)
  {
    if i > 0 {
      assert l[0].0 != k;
      assert forall j :: 0 <= j < i - 1 ==> l[1..][j].0 == l[j + 1].0;
      LookupFindsFirst(l[1..], k, i - 1);
    }
  }

  /** `level[k] || {}` */
  function Branch<V>(l: Level<Level<V>>, k: string): Level<V> {
    match Lookup(l, k)
    case Some(child) => child
    case None => []
  }

  // The derived choice lists; an empty ancestor (falsy in JavaScript) yields no choices.

  function ProvinceChoices(t: OptionsTree): seq<string> {
    Keys(t)
  }

  function CityChoices(t: OptionsTree, province: string): seq<string> {
    if province == "" then [] else Keys(Branch(t, province))
  }

  function DistrictChoices(t: OptionsTree, province: string, city: string): seq<string> {
    if province == "" || city == "" then [] else Keys(Branch(Branch(t, province), city))
  }

  function NeighborhoodChoices(t: OptionsTree, province: string, city: string, district: string): seq<string> {
    if province == "" || city == "" || district == "" then []
    else match Lookup(Branch(Branch(t, province), city), district)
      case Some(names) => names
      case None => []
  }

  /** The eight string-valued state fields of the form. */
  datatype Selection = Selection(
    province: string, city: string, district: string, neighborhood: string,
    area: string, isNorthSouth: string, longitude: string, latitude: string)

  const Initial := Selection("", "", "", "", "", "", "", "")

  /** One user interaction: a change event delivered to one control's handler. */
  datatype Event =
    | ProvinceChange(value: string)
    | CityChange(value: string)
    | DistrictChange(value: string)
    | NeighborhoodChange(value: string)
    | AreaChange(value: string)
    | IsNorthSouthChange(value: string)
    | LongitudeChange(value: string)
    | LatitudeChange(value: string)

  /** The state after the handler wired to the event's control has run. */
  function Apply(s: Selection, e: Event): Selection {
    match e
    case ProvinceChange(v) => s.(province := v, city := "", district := "", neighborhood := "")
    case CityChange(v) => s.(city := v, district := "", neighborhood := "")
    case DistrictChange(v) => s.(district := v, neighborhood := "")
    case NeighborhoodChange(v) => s.(neighborhood := v)
    case AreaChange(v) => s.(area := v)
    case IsNorthSouthChange(v) => s.(isNorthSouth := v)
    case LongitudeChange(v) => s.(longitude := v)
    case LatitudeChange(v) => s.(latitude := v)
  }

  function Run(s: Selection, es: seq<Event>): Selection
    decreases |es|
  {
    if es == [] then s else Run(Apply(s, es[0]), es[1..])
  }

  /**
   The events the rendered form can deliver in state `s`: a dependent
   select is disabled while its parent is empty, every select offers only
   the values listed for it, and the free inputs accept any text.
   */
  predicate Offered(t: OptionsTree, s: Selection, e: Event) {
    match e
    case ProvinceChange(v) => v in ProvinceChoices(t)
    case CityChange(v) => s.province != "" && v in CityChoices(t, s.province)
    case DistrictChange(v) => s.city != "" && v in DistrictChoices(t, s.province, s.city)
    case NeighborhoodChange(v) =>
      s.district != "" && v in NeighborhoodChoices(t, s.province, s.city, s.district)
    case IsNorthSouthChange(v) => v == "yes" || v == "no"
    case AreaChange(_) => true
    case LongitudeChange(_) => true
    case LatitudeChange(_) => true
  }

  predicate AllOffered(t: OptionsTree, s: Selection, es: seq<Event>)
    decreases |es|
  {
    es == [] || (Offered(t, s, es[0]) && AllOffered(t, Apply(s, es[0]), es[1..]))
  }

  /** A non-empty level has a non-empty parent. */
  predicate AncestorsSet(s: Selection) {
    && (s.city != "" ==> s.province != "")
    && (s.district != "" ==> s.city != "")
    && (s.neighborhood != "" ==> s.district != "")
  }

  /**
   Every non-empty level is one of the choices its ancestors offer, and the
   orientation holds one of the three values the form knows.
   */
  predicate Consistent(t: OptionsTree, s: Selection) {
    && (s.province == "" || s.province in ProvinceChoices(t))
    && (s.city == "" || s.city in CityChoices(t, s.province))
    && (s.district == "" || s.district in DistrictChoices(t, s.province, s.city))
    && (s.neighborhood == "" || s.neighborhood in NeighborhoodChoices(t, s.province, s.city, s.district))
    && (s.isNorthSouth == "" || s.isNorthSouth == "yes" || s.isNorthSouth == "no")
  }

  /** Position of each location level: 0 province, 1 city, 2 district, 3 neighbourhood. */
  function LocationAt(s: Selection, k: nat): string
    requires k < 4
  {
    if k == 0 then s.province else if k == 1 then s.city else if k == 2 then s.district else s.neighborhood
  }

  /** The level a location event targets. */
  function LevelOf(e: Event): Option<nat> {
    match e
    case ProvinceChange(_) => Some(0)
    case CityChange(_) => Some(1)
    case DistrictChange(_) => Some(2)
    case NeighborhoodChange(_) => Some(3)
    case _ => None
  }

  /**
   The parent-clears-children cascade: a change at level L keeps every
   level above L, sets L, empties every level below L and leaves the
   scalar fields alone; a scalar change leaves all four levels alone.
   */
  lemma Cascade(s: Selection, e: Event)
    ensures var s' := Apply(s, e);
      && (forall k: nat :: k < 4 ==>
           match LevelOf(e)
           case Some(l) =>
             LocationAt(s', k) == (if k < l then LocationAt(s, k) else if k == l then e.value else "")
           case None => LocationAt(s', k) == LocationAt(s, k))
      && (LevelOf(e).Some? ==>
           s'.area == s.area && s'.isNorthSouth == s.isNorthSouth
           && s'.longitude == s.longitude && s'.latitude == s.latitude)
  {
  }

  /** Consistency implies the ancestor invariant. */
  lemma ConsistentHasAncestors(t: OptionsTree, s: Selection)
    requires Consistent(t, s)
    ensures AncestorsSet(s)
  {
  }

  /** Every event the form offers keeps the selection consistent with the tree. */
  lemma ApplyKeepsConsistent(t: OptionsTree, s: Selection, e: Event)
    requires Consistent(t, s) && Offered(t, s, e)
    ensures Consistent(t, Apply(s, e))
  {
  }

  lemma {:induction false} RunKeepsConsistent(t: OptionsTree, s: Selection, es: seq<Event>)
    requires Consistent(t, s) && AllOffered(t, s, es)
    ensures Consistent(t, Run(s, es))
    decreases |es|
  {
    if es != [] {
      ApplyKeepsConsistent(t, s, es[0]);
      RunKeepsConsistent(t, Apply(s, es[0]), es[1..]);
    }
  }

  /**
   After any sequence of interactions the form allows, starting from the
   empty form: every level holds a listed choice, a non-empty level has a
   non-empty parent, and the orientation is '', 'yes' or 'no'.
   */
  lemma ReachableIsConsistent(t: OptionsTree, es: seq<Event>)
    requires AllOffered(t, Initial, es)
    ensures Consistent(t, Run(Initial, es)) && AncestorsSet(Run(Initial, es))
  {
    RunKeepsConsistent(t, Initial, es);
    ConsistentHasAncestors(t, Run(Initial, es));
  }

  /** Handling the same event twice is the same as handling it once. */
  lemma ApplyIdempotent(s: Selection, e: Event)
    ensures Apply(Apply(s, e), e) == Apply(s, e)
  {
  }

  /**
   Re-delivering the current value: a neighbourhood change is a no-op, a
   district change is a no-op exactly when no neighbourhood is chosen, and
   a province change still clears every level below it.
   */
  lemma RepeatedCurrentValue(s: Selection)
    ensures Apply(s, NeighborhoodChange(s.neighborhood)) == s
    ensures Apply(s, DistrictChange(s.district)) == s <==> s.neighborhood == ""
    ensures Apply(s, ProvinceChange(s.province)) == s.(city := "", district := "", neighborhood := "")
  {
    if Apply(s, DistrictChange(s.district)) == s {
      assert Apply(s, DistrictChange(s.district)).neighborhood == "";
    }
  }

  /** A tree that failed to load (the empty object) offers no choice at any level. */
  lemma EmptyTreeOffersNothing(s: Selection)
    ensures ProvinceChoices([]) == []
    ensures CityChoices([], s.province) == []
    ensures DistrictChoices([], s.province, s.city) == []
    ensures NeighborhoodChoices([], s.province, s.city, s.district) == []
  {
  }

  /**
   The choice lists come from the tree: the cities offered are the keys of
   the province's entry in the tree, or none when the province is empty or
   absent from the tree; likewise one level down for the districts.
   */
  lemma ChoicesFollowTree(t: OptionsTree, p: string, c: string)
    ensures p == "" || p !in Keys(t) ==> CityChoices(t, p) == []
    ensures p != "" && p in Keys(t) ==>
      exists cities :: (p, cities) in t && CityChoices(t, p) == Keys(cities)
    ensures c == "" || c !in CityChoices(t, p) ==> DistrictChoices(t, p, c) == []
    ensures p != "" && c != "" && c in CityChoices(t, p) ==>
      exists districts :: (c, districts) in Branch(t, p) && DistrictChoices(t, p, c) == Keys(districts)
  {
    if p != "" && p in Keys(t) {
      assert (p, Branch(t, p)) in t;
    }
    if p != "" && c != "" && c in CityChoices(t, p) {
      assert (c, Branch(Branch(t, p), c)) in Branch(t, p);
    }
  }

  /** The neighbourhoods offered are the list stored under the chosen district. */
  lemma NeighborhoodsFollowTree(t: OptionsTree, p: string, c: string, d: string)
    ensures d == "" || d !in DistrictChoices(t, p, c) ==> NeighborhoodChoices(t, p, c, d) == []
    ensures p != "" && c != "" && d != "" && d in DistrictChoices(t, p, c) ==>
      (d, NeighborhoodChoices(t, p, c, d)) in Branch(Branch(t, p), c)
  {
  }

  const ExampleTree: OptionsTree := [("P1", [("C1", [("D1", ["N1", "N2"])])])]

  /** With the one-branch example tree, choosing P1, C1, D1 offers exactly N1 and N2. */
  lemma ExampleNeighborhoods()
    ensures AllOffered(ExampleTree, Initial, [ProvinceChange("P1"), CityChange("C1"), DistrictChange("D1")])
    ensures var s := Run(Initial, [ProvinceChange("P1"), CityChange("C1"), DistrictChange("D1")]);
      NeighborhoodChoices(ExampleTree, s.province, s.city, s.district) == ["N1", "N2"]
  {
    var s1 := Apply(Initial, ProvinceChange("P1"));
    var s2 := Apply(s1, CityChange("C1"));
    assert CityChoices(ExampleTree, "P1") == ["C1"];
    assert DistrictChoices(ExampleTree, "P1", "C1") == ["D1"];
    assert AllOffered(ExampleTree, Apply(s2, DistrictChange("D1")), []);
  }

  /**
   The value JavaScript's `Number(text)` yields for a non-empty input,
   kept symbolic: `Converted(t)` stands for `Number(t)`, `NotANumber` for
   the `NaN` the form substitutes for an empty area.
   */
  datatype NumericValue = NotANumber | Converted(text: string)

  /** The object passed to `onLocationChange`. */
  datatype Snapshot = Snapshot(
    province: string, city: string, district: string, neighborhood: string,
    area: NumericValue, isNorthSouth: string,
    longitude: Option<NumericValue>, latitude: Option<NumericValue>)

  /** An empty numeric text becomes "absent" (`NaN` for the area, `null` for the coordinates). */
  function SnapshotOf(s: Selection): (r: Snapshot)
    ensures r.province == s.province && r.city == s.city && r.district == s.district
    ensures r.neighborhood == s.neighborhood && r.isNorthSouth == s.isNorthSouth
    ensures r.area.NotANumber? <==> s.area == ""
    ensures r.longitude.None? <==> s.longitude == ""
    ensures r.latitude.None? <==> s.latitude == ""
    ensures r.area.Converted? ==> r.area.text == s.area
    ensures r.longitude.Some? ==> r.longitude.value == Converted(s.longitude)
    ensures r.latitude.Some? ==> r.latitude.value == Converted(s.latitude)
  {
    Snapshot(
      s.province, s.city, s.district, s.neighborhood,
      if s.area == "" then NotANumber else Converted(s.area),
      s.isNorthSouth,
      if s.longitude == "" then None else Some(Converted(s.longitude)),
      if s.latitude == "" then None else Some(Converted(s.latitude)))
  }

  /**
   Filling in every field, from any earlier state, yields a snapshot made
   of exactly the entered values: nothing of the earlier selection remains.
   */
  lemma FilledFormSnapshot(prior: Selection, p: string, c: string, d: string, n: string)
    ensures SnapshotOf(Run(prior, [
        ProvinceChange(p), CityChange(c), DistrictChange(d), NeighborhoodChange(n),
        AreaChange("88.5"), IsNorthSouthChange("yes"),
        LongitudeChange("126.63"), LatitudeChange("45.75")]))
      == Snapshot(p, c, d, n, Converted("88.5"), "yes", Some(Converted("126.63")), Some(Converted("45.75")))
  {
    var es := [
        ProvinceChange(p), CityChange(c), DistrictChange(d), NeighborhoodChange(n),
        AreaChange("88.5"), IsNorthSouthChange("yes"),
        LongitudeChange("126.63"), LatitudeChange("45.75")];
    var s1 := Apply(prior, es[0]);
    var s2 := Apply(s1, es[1]);
    var s3 := Apply(s2, es[2]);
    var s4 := Apply(s3, es[3]);
    var s5 := Apply(s4, es[4]);
    var s6 := Apply(s5, es[5]);
    var s7 := Apply(s6, es[6]);
    var s8 := Apply(s7, es[7]);
    assert Run(s7, es[7..]) == s8 by { assert es[7..][1..] == []; }
    assert Run(s6, es[6..]) == Run(s7, es[7..]) by { assert es[6..][1..] == es[7..]; }
    assert Run(s5, es[5..]) == Run(s6, es[6..]) by { assert es[5..][1..] == es[6..]; }
    assert Run(s4, es[4..]) == Run(s5, es[5..]) by { assert es[4..][1..] == es[5..]; }
    assert Run(s3, es[3..]) == Run(s4, es[4..]) by { assert es[3..][1..] == es[4..]; }
    assert Run(s2, es[2..]) == Run(s3, es[3..]) by { assert es[2..][1..] == es[3..]; }
    assert Run(s1, es[1..]) == Run(s2, es[2..]) by { assert es[1..][1..] == es[2..]; }
  }

  /**
   The form component: the loaded tree and the eight state fields, one
   method per change handler.
   */
  class LocationSelector {
    const options: OptionsTree
    var province: string
    var city: string
    var district: string
    var neighborhood: string
    var area: string
    var isNorthSouth: string
    var longitude: string
    var latitude: string

    function State(): Selection
      reads this
    {
      Selection(province, city, district, neighborhood, area, isNorthSouth, longitude, latitude)
    }

    /**
     Mounts the form with the outcome of loading the tree: `None` when the
     fetch failed or produced `null`, in which case the tree is empty.
     */
    constructor (loaded: Option<OptionsTree>)
      ensures options == (if loaded.Some? then loaded.value else [])
      ensures State() == Initial
      ensures Consistent(options, State())
    {
      options := if loaded.Some? then loaded.value else [];
      province, city, district, neighborhood := "", "", "", "";
      area, isNorthSouth, longitude, latitude := "", "", "", "";
    }

    function Provinces(): seq<string>
      reads this
    {
      ProvinceChoices(options)
    }

    function Cities(): seq<string>
      reads this
    {
      CityChoices(options, province)
    }

    function Districts(): seq<string>
      reads this
    {
      DistrictChoices(options, province, city)
    }

    function Neighborhoods(): seq<string>
      reads this
    {
      NeighborhoodChoices(options, province, city, district)
    }

    /** The payload of the notification effect. */
    function CurrentSnapshot(): Snapshot
      reads this
    {
      SnapshotOf(State())
    }

    method HandleProvinceChange(value: string)
      modifies this
      ensures province == value && city == "" && district == "" && neighborhood == ""
      ensures area == old(area) && isNorthSouth == old(isNorthSouth)
      ensures longitude == old(longitude) && latitude == old(latitude)
      ensures State() == Apply(old(State()), ProvinceChange(value))
      ensures Consistent(options, old(State())) && Offered(options, old(State()), ProvinceChange(value))
        ==> Consistent(options, State())
    {
      province := value;
      city := "";
      district := "";
      neighborhood := "";
      assert State() == Apply(old(State()), ProvinceChange(value));
      if Consistent(options, old(State())) && Offered(options, old(State()), ProvinceChange(value)) {
        ApplyKeepsConsistent(options, old(State()), ProvinceChange(value));
      }
    }

    method HandleCityChange(value: string)
      modifies this
      ensures province == old(province) && city == value && district == "" && neighborhood == ""
      ensures area == old(area) && isNorthSouth == old(isNorthSouth)
      ensures longitude == old(longitude) && latitude == old(latitude)
      ensures State() == Apply(old(State()), CityChange(value))
      ensures Consistent(options, old(State())) && Offered(options, old(State()), CityChange(value))
        ==> Consistent(options, State())
    {
      city := value;
      district := "";
      neighborhood := "";
      assert State() == Apply(old(State()), CityChange(value));
      if Consistent(options, old(State())) && Offered(options, old(State()), CityChange(value)) {
        ApplyKeepsConsistent(options, old(State()), CityChange(value));
      }
    }

    method HandleDistrictChange(value: string)
      modifies this
      ensures province == old(province) && city == old(city) && district == value && neighborhood == ""
      ensures area == old(area) && isNorthSouth == old(isNorthSouth)
      ensures longitude == old(longitude) && latitude == old(latitude)
      ensures State() == Apply(old(State()), DistrictChange(value))
      ensures Consistent(options, old(State())) && Offered(options, old(State()), DistrictChange(value))
        ==> Consistent(options, State())
    {
      district := value;
      neighborhood := "";
      assert State() == Apply(old(State()), DistrictChange(value));
      if Consistent(options, old(State())) && Offered(options, old(State()), DistrictChange(value)) {
        ApplyKeepsConsistent(options, old(State()), DistrictChange(value));
      }
    }

    method SetNeighborhood(value: string)
      modifies this
      ensures State() == old(State()).(neighborhood := value)
      ensures State() == Apply(old(State()), NeighborhoodChange(value))
      ensures Consistent(options, old(State())) && Offered(options, old(State()), NeighborhoodChange(value))
        ==> Consistent(options, State())
    {
      neighborhood := value;
      assert State() == Apply(old(State()), NeighborhoodChange(value));
      if Consistent(options, old(State())) && Offered(options, old(State()), NeighborhoodChange(value)) {
        ApplyKeepsConsistent(options, old(State()), NeighborhoodChange(value));
      }
    }

    method SetArea(value: string)
      modifies this
      ensures State() == old(State()).(area := value)
    {
      area := value;
    }

    method SetIsNorthSouth(value: string)
      modifies this
      ensures State() == old(State()).(isNorthSouth := value)
      ensures Consistent(options, old(State())) && Offered(options, old(State()), IsNorthSouthChange(value))
        ==> Consistent(options, State())
    {
      isNorthSouth := value;
      assert State() == Apply(old(State()), IsNorthSouthChange(value));
      if Consistent(options, old(State())) && Offered(options, old(State()), IsNorthSouthChange(value)) {
        ApplyKeepsConsistent(options, old(State()), IsNorthSouthChange(value));
      }
    }

    method SetLongitude(value: string)
      modifies this
      ensures State() == old(State()).(longitude := value)
    {
      longitude := value;
    }

    method SetLatitude(value: string)
      modifies this
      ensures State() == old(State()).(latitude := value)
    {
      latitude := value;
    }
  }

  /** A session with the example tree, through the class's handlers. */
  method ExampleSession() {
    var form := new LocationSelector(Some(ExampleTree));
    assert form.Provinces() == ["P1"];
    form.HandleProvinceChange("P1");
    assert form.Cities() == ["C1"];
    form.HandleCityChange("C1");
    form.HandleDistrictChange("D1");
    assert form.Neighborhoods() == ["N1", "N2"];
    form.SetNeighborhood("N2");
    form.HandleProvinceChange("P1");
    assert form.city == "" && form.district == "" && form.neighborhood == "";
    assert form.Neighborhoods() == [];
  }
}
