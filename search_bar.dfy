/** The search bar (components/SearchBar.tsx): the city it displays, the
    city chips it offers and which of them is highlighted. Its callbacks
    only emit values; what they emit is modelled here, and the marketplace
    stores it as its selected city. */
module SearchBar {
  import opened Common
  import opened Text

  /** `POPULAR_CITIES` */
  const PopularCities: seq<string> := [
    "São Paulo", "Rio de Janeiro", "Belo Horizonte", "Curitiba",
    "Brasília", "Porto Alegre", "Salvador"]

  /** `selectedCity || detectedCity` */
  function CurrentCity(selectedCity: Option<string>, detectedCity: Option<string>): Option<string> {
    JsOr(selectedCity, detectedCity)
  }

  /** `currentCity || ""`: the text of the city input. */
  function InputValue(selectedCity: Option<string>, detectedCity: Option<string>): (text: string)
    ensures Truthy(selectedCity) ==> text == selectedCity.value
    ensures !Truthy(selectedCity) && Truthy(detectedCity) ==> text == detectedCity.value
    ensures !Truthy(selectedCity) && !Truthy(detectedCity) ==> text == ""
  {
    var current := CurrentCity(selectedCity, detectedCity);
    if Truthy(current) then current.value else ""
  }

  /** Typing emits the raw text, so clearing the input emits `""`, which
      displays the detected city again, just as the "Brasil" chip does. */
  lemma ClearedInputShowsDetectedCity(detectedCity: Option<string>)
    ensures InputValue(Some(""), detectedCity) == InputValue(ChipEmits(Brasil), detectedCity)
    ensures InputValue(Some(""), detectedCity) == if Truthy(detectedCity) then detectedCity.value else ""
  {
  }

  /** The chips of the city row. */
  datatype Chip = Brasil | Popular(city: string)

  /** "Brasil" followed by one chip per popular city, in table order. */
  function Chips(): (chips: seq<Chip>)
    ensures |chips| == |PopularCities| + 1 && chips[0] == Brasil
    ensures forall i :: 1 <= i < |chips| ==> chips[i] == Popular(PopularCities[i - 1])
  {
    [Brasil] + seq(|PopularCities|, i requires 0 <= i < |PopularCities| => Popular(PopularCities[i]))
  }

  /** What a chip passes to `onCityChange`. */
  function ChipEmits(chip: Chip): (city: Option<string>)
    ensures chip.Brasil? ==> city.None?
    ensures chip.Popular? ==> city == Some(chip.city)
  {
    match chip
    case Brasil => None
    case Popular(c) => Some(c)
  }

  /** "Brasil" is highlighted while no city is selected; a city chip while
      its own name is the selected city. */
  predicate ChipHighlighted(chip: Chip, selectedCity: Option<string>) {
    match chip
    case Brasil => !Truthy(selectedCity)
    case Popular(c) => selectedCity == Some(c)
  }

  /** The seven popular cities are distinct. */
  lemma PopularCitiesDistinct()
    ensures forall i, j :: 0 <= i < j < |PopularCities| ==> PopularCities[i] != PopularCities[j]
  {
    assert PopularCities[0][0] == 'S' && PopularCities[1][0] == 'R';
    assert PopularCities[2][0] == 'B' && PopularCities[3][0] == 'C';
    assert PopularCities[4][0] == 'B' && PopularCities[5][0] == 'P' && PopularCities[6][0] == 'S';
    assert PopularCities[2][1] == 'e' && PopularCities[4][1] == 'r';
    assert PopularCities[0][1] == '\U{E3}' && PopularCities[6][1] == 'a';
  }

  /** At most one chip is highlighted at any time. */
  lemma AtMostOneHighlighted(selectedCity: Option<string>)
    ensures forall i, j :: 0 <= i < j < |Chips()| && ChipHighlighted(Chips()[i], selectedCity)
              ==> !ChipHighlighted(Chips()[j], selectedCity)
  {
    PopularCitiesDistinct();
    var chips := Chips();
    forall i, j | 0 <= i < j < |chips| && ChipHighlighted(chips[i], selectedCity)
      ensures !ChipHighlighted(chips[j], selectedCity)
    {
      if i > 0 {
        assert PopularCities[i - 1] != PopularCities[j - 1];
      }
    }
  }

  /** Clicking a chip selects what it emits, and that selection highlights
      the chip clicked and no other. */
  lemma ClickedChipHighlighted(chip: Chip)
    requires chip in Chips()
    ensures forall k :: 0 <= k < |Chips()| ==>
      (ChipHighlighted(Chips()[k], ChipEmits(chip)) <==> Chips()[k] == chip)
  {
    var chips := Chips();
    forall k | 1 <= k < |chips|
      ensures chips[k].city != ""
    {
      assert |PopularCities[k - 1]| > 0;
    }
  }
}
