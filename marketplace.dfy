/** The top-level component (App.tsx): the discovery filter over the roster,
    the city and navigation state it keeps, and the profile lookup. */
module Marketplace {
  import opened Common
  import opened Text
  import opened Types
  import CreatorService

  /** The gender sentinel that admits every creator. */
  const AllGenders: string := "Todos"

  /** The city a successful location detection reports. */
  const DetectedCityName: string := "São Paulo"

  // ----- the discovery filter -----

  /** `selectedCity || detectedCity` */
  function CityToFilter(selectedCity: Option<string>, detectedCity: Option<string>): Option<string> {
    JsOr(selectedCity, detectedCity)
  }

  /** `!cityToFilter || creator.location_city?.toLowerCase().includes(cityToFilter.toLowerCase())` */
  predicate CityMatch(c: Creator, cityToFilter: Option<string>) {
    !Truthy(cityToFilter)
    || (c.location_city.Some? && Includes(Lower(c.location_city.value), Lower(cityToFilter.value)))
  }

  /** `selectedGender === 'Todos' || creator.gender === selectedGender` */
  predicate GenderMatch(c: Creator, selectedGender: string) {
    selectedGender == AllGenders || c.gender == Some(selectedGender)
  }

  predicate Shown(c: Creator, selectedCity: Option<string>, detectedCity: Option<string>, selectedGender: string) {
    CityMatch(c, CityToFilter(selectedCity, detectedCity)) && GenderMatch(c, selectedGender)
  }

  /** `filteredCreators` */
  function FilteredCreators(creators: seq<Creator>, selectedCity: Option<string>,
                            detectedCity: Option<string>, selectedGender: string): seq<Creator>
  {
    Filter(c => Shown(c, selectedCity, detectedCity, selectedGender), creators)
  }

  /** The result is the roster's subsequence of shown creators: order is
      kept, every shown creator is kept as often as it occurs, and every
      other creator is dropped. */
  lemma FilteredIsShownSubsequence(creators: seq<Creator>, selectedCity: Option<string>,
                                   detectedCity: Option<string>, selectedGender: string)
    ensures var r := FilteredCreators(creators, selectedCity, detectedCity, selectedGender);
      && IsSubsequence(r, creators)
      && (forall c :: multiset(r)[c] == if Shown(c, selectedCity, detectedCity, selectedGender) then multiset(creators)[c] else 0)
      && (forall c :: c in r <==> c in creators && Shown(c, selectedCity, detectedCity, selectedGender))
  {
    var p := c => Shown(c, selectedCity, detectedCity, selectedGender);
    FilterIsSubsequence(p, creators);
    FilterCounts(p, creators);
    FilterMembership(p, creators);
  }

  /** Filtering the filtered roster again changes nothing. */
  lemma RefilterUnchanged(creators: seq<Creator>, selectedCity: Option<string>,
                          detectedCity: Option<string>, selectedGender: string)
    ensures var r := FilteredCreators(creators, selectedCity, detectedCity, selectedGender);
      FilteredCreators(r, selectedCity, detectedCity, selectedGender) == r
  {
    FilterIdempotent(c => Shown(c, selectedCity, detectedCity, selectedGender), creators);
  }

  /** With neither a selected nor a detected city (null or empty) and the
      gender sentinel, the whole roster is shown. */
  lemma NoCityShowsEveryone(creators: seq<Creator>, selectedCity: Option<string>, detectedCity: Option<string>)
    requires !Truthy(selectedCity) && !Truthy(detectedCity)
    ensures FilteredCreators(creators, selectedCity, detectedCity, AllGenders) == creators
  {
    FilterAllPass(c => Shown(c, selectedCity, detectedCity, AllGenders), creators);
  }

  /** An active city filter admits a creator exactly when the lower-cased
      filter occurs somewhere in the creator's lower-cased city; a creator
      without a city is never admitted. */
  lemma CityMatchIsContainment(c: Creator, city: string)
    requires city != ""
    ensures CityMatch(c, Some(city)) <==>
      c.location_city.Some? && exists k :: OccursAt(Lower(c.location_city.value), Lower(city), k)
  {
    if c.location_city.Some? {
      IncludesIff(Lower(c.location_city.value), Lower(city));
    }
  }

  /** The filter "paulo" admits a creator from "São Paulo". */
  lemma PauloAdmitsSaoPaulo(c: Creator)
    requires c.location_city == Some("São Paulo")
    ensures CityMatch(c, Some("paulo"))
  {
    assert Lower("paulo") == "paulo";
    assert Lower("São Paulo") == "são paulo";
    assert OccursAt("são paulo", "paulo", 4);
    IncludesIff("são paulo", "paulo");
  }

  /** A selected city overrides the detected one; a selection that is null or
      empty falls back to the detected city, so clearing the selection keeps
      the detected city's filter in force. */
  lemma ClearedSelectionKeepsDetectedCity(creators: seq<Creator>, selectedCity: Option<string>,
                                          detectedCity: Option<string>, selectedGender: string)
    requires !Truthy(selectedCity) && Truthy(detectedCity)
    ensures FilteredCreators(creators, selectedCity, detectedCity, selectedGender)
         == FilteredCreators(creators, detectedCity, None, selectedGender)
    ensures forall c :: c in FilteredCreators(creators, selectedCity, detectedCity, selectedGender) ==>
      c.location_city.Some? && Includes(Lower(c.location_city.value), Lower(detectedCity.value))
  {
    FilterSameTest(c => Shown(c, selectedCity, detectedCity, selectedGender),
                   c => Shown(c, detectedCity, None, selectedGender), creators);
    FilterMembership(c => Shown(c, selectedCity, detectedCity, selectedGender), creators);
  }

  /** Any gender other than the sentinel demands an equal gender, so a
      creator whose gender is unset is filtered out. */
  lemma GenderIsStrict(creators: seq<Creator>, selectedCity: Option<string>,
                       detectedCity: Option<string>, selectedGender: string)
    requires selectedGender != AllGenders
    ensures forall c :: c in FilteredCreators(creators, selectedCity, detectedCity, selectedGender) ==>
      c.gender == Some(selectedGender)
  {
    FilterMembership(c => Shown(c, selectedCity, detectedCity, selectedGender), creators);
  }

  /** The service never fills in `gender`, so on a roster it loaded any
      gender other than the sentinel shows nobody. */
  lemma LoadedRosterHasNoGenderMatch(clientPresent: bool, reply: CreatorService.QueryReply,
                                     draws: seq<CreatorService.RatingDraw>, selectedCity: Option<string>,
                                     detectedCity: Option<string>, selectedGender: string)
    requires reply.QueryData? && reply.rows.Some? ==> |draws| == |reply.rows.value|
    requires selectedGender != AllGenders
    ensures FilteredCreators(CreatorService.GetAll(clientPresent, reply, draws), selectedCity, detectedCity, selectedGender) == []
  {
    var roster := CreatorService.GetAll(clientPresent, reply, draws);
    FilterNonePass(c => Shown(c, selectedCity, detectedCity, selectedGender), roster);
  }

  // ----- the profile lookup -----

  /** Position of the first creator whose id is `id`, or `|creators|`. */
  function FirstWithId(creators: seq<Creator>, id: Option<string>): (k: nat)
    ensures k <= |creators|
    ensures forall j :: 0 <= j < k ==> Some(creators[j].id) != id
    ensures k < |creators| ==> Some(creators[k].id) == id
  {
    if creators == [] then 0
    else if Some(creators[0].id) == id then 0
    else 1 + FirstWithId(creators[1..], id)
  }

  /** `creators.find(c => c.id === id)`: the first creator with that id. */
  function FindById(creators: seq<Creator>, id: Option<string>): (r: Option<Creator>)
    ensures r.None? <==> forall j :: 0 <= j < |creators| ==> Some(creators[j].id) != id
    ensures r.Some? ==> exists k :: 0 <= k < |creators| && creators[k] == r.value && Some(r.value.id) == id
                                   && forall j :: 0 <= j < k ==> Some(creators[j].id) != id
  {
    var k := FirstWithId(creators, id);
    if k < |creators| then Some(creators[k]) else None
  }

  // ----- the component's state -----

  /** What the marketplace grid shows. */
  datatype Grid = Skeleton | Cards(shown: seq<Creator>) | NoResults

  class App {
    var nav: NavState
    var creators: seq<Creator>
    var loading: bool
    var configError: bool
    var detectedCity: Option<string>
    var selectedCity: Option<string>
    var selectedGender: string
    var isLocating: bool

    /** No handler of the component changes the gender: the search bar it
        hands the gender callback to never calls it. */
    ghost predicate Valid()
      reads this
    {
      selectedGender == AllGenders
    }

    constructor ()
      ensures Valid()
      ensures nav == NavState(MarketplaceView, None) && creators == [] && loading && !configError
      ensures detectedCity == None && selectedCity == None && !isLocating
    {
      nav := NavState(MarketplaceView, None);
      creators := [];
      loading := true;
      configError := false;
      detectedCity := None;
      selectedCity := None;
      selectedGender := AllGenders;
      isLocating := false;
    }

    /** The creators the grid lists. */
    function Filtered(): seq<Creator>
      reads this
    {
      FilteredCreators(creators, selectedCity, detectedCity, selectedGender)
    }

    /** Skeleton cards while loading, else the filtered cards, else the
        empty-result message. */
    function ShownGrid(): (g: Grid)
      reads this
      ensures g.Cards? ==> !loading && g.shown == Filtered() && g.shown != []
      ensures g.NoResults? <==> !loading && Filtered() == []
      ensures g.Skeleton? <==> loading
    {
      if loading then Skeleton
      else if |Filtered()| > 0 then Cards(Filtered())
      else NoResults
    }

    /** The mount effect: without a client the configuration error shows and
        loading stops; with one a load starts. Location detection starts in
        either case. */
    method Mount(clientPresent: bool, hasGeolocation: bool) returns (startsLoad: bool)
      requires Valid()
      modifies this
      ensures Valid()
      ensures startsLoad == clientPresent
      ensures configError == (old(configError) || !clientPresent)
      ensures loading == clientPresent
      ensures isLocating == (old(isLocating) || hasGeolocation)
      ensures nav == old(nav) && creators == old(creators)
      ensures detectedCity == old(detectedCity) && selectedCity == old(selectedCity)
    {
      if !clientPresent {
        configError := true;
        loading := false;
        startsLoad := false;
      } else {
        loading := true;
        startsLoad := true;
      }
      DetectLocation(hasGeolocation);
    }

    /** `handleDetectLocation`: only a browser with geolocation starts a request. */
    method DetectLocation(hasGeolocation: bool)
      modifies this`isLocating
      ensures isLocating == (old(isLocating) || hasGeolocation)
    {
      if hasGeolocation {
        isLocating := true;
      }
    }

    /** The position callback: the coordinates are ignored and the city is
        fixed; any selection is cleared. */
    method LocationFound()
      requires Valid()
      modifies this`detectedCity, this`selectedCity, this`isLocating
      ensures Valid()
      ensures detectedCity == Some(DetectedCityName) && selectedCity == None && !isLocating
    {
      detectedCity := Some(DetectedCityName);
      selectedCity := None;
      isLocating := false;
    }

    /** The error callback. */
    method LocationFailed()
      modifies this`isLocating
      ensures !isLocating
    {
      isLocating := false;
    }

    /** The search bar's `onCityChange`. */
    method ChangeCity(city: Option<string>)
      requires Valid()
      modifies this`selectedCity
      ensures Valid()
      ensures selectedCity == city
    {
      selectedCity := city;
    }

    /** `loadCreators` when it starts. */
    method BeginLoad()
      modifies this`loading
      ensures loading
    {
      loading := true;
    }

    /** `loadCreators` when `getAll` resolves; `getAll` never throws. */
    method CreatorsLoaded(data: seq<Creator>)
      modifies this`creators, this`loading
      ensures creators == data && !loading
    {
      creators := data;
      loading := false;
    }

    /** `setView`: a new view with no selected creator. */
    method SetView(view: View)
      modifies this`nav
      ensures nav == NavState(view, None)
    {
      nav := NavState(view, None);
    }

    /** A card's `onClick`. */
    method OpenProfile(id: string)
      modifies this`nav
      ensures nav == NavState(ProfileView, Some(id))
    {
      nav := NavState(ProfileView, Some(id));
    }

    /** `renderProfile`: the first creator with the selected id, or, when
        there is none, a switch back to the marketplace. */
    method RenderProfile() returns (shown: Option<Creator>)
      requires nav.view == ProfileView
      modifies this`nav
      ensures shown == FindById(creators, old(nav.selectedCreatorId))
      ensures shown.None? ==> nav == NavState(MarketplaceView, None)
      ensures shown.Some? ==> nav == old(nav)
    {
      shown := FindById(creators, nav.selectedCreatorId);
      if shown.None? {
        SetView(MarketplaceView);
      }
    }
  }

  /** After a successful detection the grid filters by the detected city,
      whatever had been selected before. */
  lemma DetectionFiltersByDetectedCity(creators: seq<Creator>, selectedCity: Option<string>, selectedGender: string)
    ensures FilteredCreators(creators, None, Some(DetectedCityName), selectedGender)
         == FilteredCreators(creators, Some(DetectedCityName), selectedCity, selectedGender)
  {
    FilterSameTest(c => Shown(c, None, Some(DetectedCityName), selectedGender),
                   c => Shown(c, Some(DetectedCityName), selectedCity, selectedGender), creators);
  }
}
