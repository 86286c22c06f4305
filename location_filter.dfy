/** The state and city selects (components/LocationFilter.tsx). The lists of
    states and cities come from a web service; a request is modelled by the
    flag it raises and its answer by the handler that receives it. Every
    value the component passes to `onLocationChange` is recorded, in order,
    in `emitted`. */
module LocationFilter {
  import opened Common

  /** A state of the federation as the service lists it. */
  datatype Uf = Uf(id: int, sigla: string, nome: string)

  /** A municipality as the service lists it. */
  datatype City = City(id: int, nome: string)

  /** `city || null`: what a city choice passes to `onLocationChange`. */
  function Emission(city: string): (e: Option<string>)
    ensures e.None? <==> city == ""
    ensures e.Some? ==> e.value == city
  {
    if city == "" then None else Some(city)
  }

  /** The values the city select offers: the empty placeholder, then the
      name of every listed city. */
  function CityOptions(cities: seq<City>): (options: seq<string>)
    ensures |options| == |cities| + 1 && options[0] == ""
    ensures forall k :: 0 <= k < |cities| ==> options[k + 1] == cities[k].nome
  {
    [""] + seq(|cities|, k requires 0 <= k < |cities| => cities[k].nome)
  }

  class LocationFilter {
    var ufs: seq<Uf>
    var cities: seq<City>
    var selectedUf: string
    var selectedCity: string
    var loadingCities: bool
    var emitted: seq<Option<string>>

    /** The parent was last told exactly the selected city: nothing when no
        city is selected, and the city otherwise. */
    ghost predicate Valid()
      reads this
    {
      emitted != [] ==> emitted[|emitted| - 1] == Emission(selectedCity)
    }

    /** Mounting: nothing selected, no lists, and the cities effect for the
        empty state, which only clears the cities. */
    constructor ()
      ensures Valid()
      ensures ufs == [] && cities == [] && selectedUf == "" && selectedCity == ""
      ensures !loadingCities && emitted == []
    {
      ufs := [];
      cities := [];
      selectedUf := "";
      selectedCity := "";
      loadingCities := false;
      emitted := [];
    }

    /** The state list arrived. */
    method UfsFetched(data: seq<Uf>)
      modifies this`ufs
      ensures ufs == data
    {
      ufs := data;
    }

    /** The select is disabled with no state chosen or while cities load. */
    predicate CitySelectDisabled()
      reads this
    {
      selectedUf == "" || loadingCities
    }

    /** `handleUfChange`, followed by the cities effect when the state
        changed: an empty state clears the cities, any other one starts a
        request and raises the loading flag. */
    method HandleUfChange(uf: string) returns (fetchStarted: bool)
      requires Valid()
      modifies this`selectedUf, this`selectedCity, this`emitted, this`cities, this`loadingCities
      ensures Valid()
      ensures selectedUf == uf && selectedCity == "" && emitted == old(emitted) + [None]
      ensures fetchStarted <==> uf != old(selectedUf) && uf != ""
      ensures fetchStarted ==> loadingCities && cities == old(cities)
      ensures uf != old(selectedUf) && uf == "" ==> cities == [] && loadingCities == old(loadingCities)
      ensures uf == old(selectedUf) ==> cities == old(cities) && loadingCities == old(loadingCities)
    {
      var changed := uf != selectedUf;
      selectedUf := uf;
      selectedCity := "";
      emitted := emitted + [None];
      fetchStarted := false;
      if changed {
        if uf == "" {
          cities := [];
        } else {
          loadingCities := true;
          fetchStarted := true;
        }
      }
    }

    /** The city request answered. */
    method CitiesFetched(data: seq<City>)
      modifies this`cities, this`loadingCities
      ensures cities == data && !loadingCities
    {
      cities := data;
      loadingCities := false;
    }

    /** The city request failed: the list stays as it was. */
    method CitiesFetchFailed()
      modifies this`loadingCities
      ensures !loadingCities
    {
      loadingCities := false;
    }

    /** `handleCityChange`: the enabled select yields one of its options. */
    method HandleCityChange(city: string)
      requires Valid() && !CitySelectDisabled() && city in CityOptions(cities)
      modifies this`selectedCity, this`emitted
      ensures Valid()
      ensures selectedCity == city && emitted == old(emitted) + [Emission(city)]
    {
      selectedCity := city;
      emitted := emitted + [Emission(city)];
    }
  }

  /** Choosing a state and then one of its cities leaves the city selected,
      the parent told that city, and the selects enabled. */
  method ChooseStateThenCity(uf: string, data: seq<City>, k: int) returns (told: Option<string>, disabled: bool)
    requires uf != "" && 0 <= k < |data|
    ensures told == Emission(data[k].nome) && !disabled
  {
    var filter := new LocationFilter();
    var started := filter.HandleUfChange(uf);
    assert started && filter.loadingCities;
    filter.CitiesFetched(data);
    assert CityOptions(data)[k + 1] == data[k].nome;
    filter.HandleCityChange(data[k].nome);
    told := filter.emitted[|filter.emitted| - 1];
    disabled := filter.CitySelectDisabled();
  }
}
