/** The screen state and the country list of the C++ game
    (src/GameState.cpp, include/GameState.h). */
module GameStates {

  import opened Common

  datatype GameStateType = MainMenu | CountrySelect | Playing | Paused | Options

  datatype Country = Country(
    name: string,
    code: string,
    centerLat: real,
    centerLon: real,
    defaultZoom: int,
    minLat: real,
    maxLat: real,
    minLon: real,
    maxLon: real)

  /** The curated list initializeCountries installs, in order. */
  function Countries(): seq<Country>
  {
    [ Country("Netherlands", "NL", 52.3676, 4.9041, 8, 50.75, 53.7, 3.31, 7.23),
      Country("Belgium", "BE", 50.5039, 4.4699, 8, 49.5, 51.5, 2.5, 6.4),
      Country("Luxembourg", "LU", 49.8153, 6.1296, 9, 49.4, 50.2, 5.7, 6.5),
      Country("Switzerland", "CH", 46.8182, 8.2275, 8, 45.8, 47.8, 5.9, 10.5),
      Country("Austria", "AT", 47.5162, 14.5501, 7, 46.4, 49.0, 9.5, 17.2),
      Country("Denmark", "DK", 56.2639, 9.5018, 7, 54.5, 57.8, 8.0, 15.2),
      Country("United Kingdom", "UK", 54.0, -2.5, 6, 49.9, 60.9, -8.0, 2.0),
      Country("Ireland", "IE", 53.4129, -8.2439, 7, 51.4, 55.4, -10.5, -5.5),
      Country("France", "FR", 46.2276, 2.2137, 6, 41.3, 51.1, -5.2, 9.6),
      Country("Germany", "DE", 51.1657, 10.4515, 6, 47.3, 55.1, 5.9, 15.0),
      Country("Italy", "IT", 41.8719, 12.5674, 6, 36.6, 47.1, 6.6, 18.5),
      Country("Spain", "ES", 40.4637, -3.7492, 6, 36.0, 43.8, -9.3, 3.3),
      Country("Portugal", "PT", 39.3999, -8.2245, 7, 36.9, 42.2, -9.5, -6.2),
      Country("Poland", "PL", 51.9194, 19.1451, 6, 49.0, 54.9, 14.1, 24.2),
      Country("Czech Republic", "CZ", 49.8175, 15.4730, 7, 48.5, 51.1, 12.1, 18.9),
      Country("Slovakia", "SK", 48.6690, 19.6990, 7, 47.7, 49.6, 16.8, 22.6),
      Country("Hungary", "HU", 47.1625, 19.5033, 7, 45.7, 48.6, 16.1, 22.9),
      Country("Romania", "RO", 45.9432, 24.9668, 7, 43.6, 48.3, 20.3, 29.7),
      Country("Sweden", "SE", 60.1282, 18.6435, 5, 55.3, 69.1, 11.0, 24.2),
      Country("Norway", "NO", 60.4720, 8.4689, 5, 57.9, 71.2, 4.5, 31.2),
      Country("Finland", "FI", 61.9241, 25.7482, 6, 59.8, 70.1, 20.5, 31.6),
      Country("Japan", "JP", 36.2048, 138.2529, 6, 24.0, 45.5, 123.0, 146.0),
      Country("South Korea", "KR", 35.9078, 127.7669, 7, 33.0, 38.6, 124.6, 131.9),
      Country("United States", "US", 37.0902, -95.7129, 4, 24.5, 49.4, -125.0, -66.9),
      Country("Canada", "CA", 56.1304, -106.3468, 4, 41.7, 83.1, -141.0, -52.6),
      Country("Australia", "AU", -25.2744, 133.7751, 4, -43.6, -10.7, 113.3, 153.6) ]
  }

  /** A country's box is proper and holds its centre. */
  predicate WellPlaced(c: Country)
  {
    c.minLat < c.maxLat && c.minLon < c.maxLon
    && c.minLat <= c.centerLat <= c.maxLat && c.minLon <= c.centerLon <= c.maxLon
  }

  /** The list has 26 entries, each with a two-letter code and well placed. */
  lemma CountriesWellFormed()
    ensures |Countries()| == 26
    ensures forall i :: 0 <= i < |Countries()| ==> |Countries()[i].code| == 2
    ensures forall i :: 0 <= i < |Countries()| ==> WellPlaced(Countries()[i])
  {
  }

  /** No two entries share a code. */
  lemma CountryCodesUnique()
    ensures forall i, j :: 0 <= i < j < |Countries()| ==> Countries()[i].code != Countries()[j].code
  {
    CodesUniqueFrom0();
    CodesUniqueFrom7();
    CodesUniqueFrom14();
    CodesUniqueFrom20();
  }

  lemma CodesUniqueFrom0()
    ensures forall i, j :: 0 <= i < 7 && i < j < |Countries()| ==> Countries()[i].code != Countries()[j].code
  {
    var cs := Countries();
    forall i, j | 0 <= i < 7 && i < j < |cs|
      ensures cs[i].code != cs[j].code
    {
      assert cs[i].code[0] != cs[j].code[0] || cs[i].code[1] != cs[j].code[1];
    }
  }

  lemma CodesUniqueFrom7()
    ensures forall i, j :: 7 <= i < 14 && i < j < |Countries()| ==> Countries()[i].code != Countries()[j].code
  {
    var cs := Countries();
    forall i, j | 7 <= i < 14 && i < j < |cs|
      ensures cs[i].code != cs[j].code
    {
      assert cs[i].code[0] != cs[j].code[0] || cs[i].code[1] != cs[j].code[1];
    }
  }

  lemma CodesUniqueFrom14()
    ensures forall i, j :: 14 <= i < 20 && i < j < |Countries()| ==> Countries()[i].code != Countries()[j].code
  {
    var cs := Countries();
    forall i, j | 14 <= i < 20 && i < j < |cs|
      ensures cs[i].code != cs[j].code
    {
      assert cs[i].code[0] != cs[j].code[0] || cs[i].code[1] != cs[j].code[1];
    }
  }

  lemma CodesUniqueFrom20()
    ensures forall i, j :: 20 <= i < 26 && i < j < |Countries()| ==> Countries()[i].code != Countries()[j].code
  {
    var cs := Countries();
    forall i, j | 20 <= i < 26 && i < j < |cs|
      ensures cs[i].code != cs[j].code
    {
      assert cs[i].code[0] != cs[j].code[0] || cs[i].code[1] != cs[j].code[1];
    }
  }

  /** Index of the first country whose code matches, if any. */
  function FindCode(cs: seq<Country>, code: string): (r: Option<nat>)
    ensures r.Some? ==> r.value < |cs| && cs[r.value].code == code
                        && forall j :: 0 <= j < r.value ==> cs[j].code != code
    ensures r.None? ==> forall j :: 0 <= j < |cs| ==> cs[j].code != code
    decreases |cs|
  {
    if |cs| == 0 then None
    else if cs[0].code == code then Some(0)
    else
      var rest := FindCode(cs[1..], code);
      if rest.Some? then Some(rest.value + 1) else None
  }

  class GameStateManager {
    var currentState: GameStateType
    var availableCountries: seq<Country>
    /** The selected entry, as an index into availableCountries. */
    var selectedCountry: Option<nat>
    var currentSaveName: string

    ghost predicate Valid()
      reads this
    {
      selectedCountry.Some? ==> selectedCountry.value < |availableCountries|
    }

    constructor ()
      ensures Valid()
      ensures currentState == MainMenu && selectedCountry == None && availableCountries == Countries()
      ensures currentSaveName == ""
    {
      currentState := MainMenu;
      selectedCountry := None;
      currentSaveName := "";
      availableCountries := Countries();
    }

    /** The selected country itself, as the stored pointer designates it. */
    function SelectedCountry(): (c: Option<Country>)
      requires Valid()
      reads this
      ensures c.Some? <==> selectedCountry.Some?
      ensures c.Some? ==> c.value in availableCountries
    {
      if selectedCountry.Some? then Some(availableCountries[selectedCountry.value]) else None
    }

    method SetCurrentSaveName(name: string)
      requires Valid()
      modifies this
      ensures Valid()
      ensures currentSaveName == name
      ensures currentState == old(currentState) && availableCountries == old(availableCountries)
      ensures selectedCountry == old(selectedCountry)
    {
      currentSaveName := name;
    }

    method SetState(newState: GameStateType)
      requires Valid()
      modifies this
      ensures Valid()
      ensures currentState == newState
      ensures availableCountries == old(availableCountries) && selectedCountry == old(selectedCountry)
      ensures currentSaveName == old(currentSaveName)
    {
      currentState := newState;
    }

    /** Selects the first entry whose code matches; with no match the
        previous selection stays. */
    method SelectCountry(country: Country)
      requires Valid()
      modifies this
      ensures Valid()
      ensures var found := FindCode(availableCountries, country.code);
              selectedCountry == if found.Some? then found else old(selectedCountry)
      ensures currentState == old(currentState) && availableCountries == old(availableCountries)
      ensures currentSaveName == old(currentSaveName)
    {
      var i := 0;
      while i < |availableCountries|
        invariant 0 <= i <= |availableCountries|
        invariant forall j :: 0 <= j < i ==> availableCountries[j].code != country.code
        invariant selectedCountry == old(selectedCountry)
      {
        if availableCountries[i].code == country.code {
          selectedCountry := Some(i);
          return;
        }
        i := i + 1;
      }
    }
  }

  /** Switzerland is found at its place in the list. */
  lemma SwitzerlandIsFourth()
    ensures FindCode(Countries(), "CH") == Some(3)
    ensures Countries()[3].name == "Switzerland"
  {
    var cs := Countries();
    assert cs[3].code == "CH";
    var r := FindCode(cs, "CH");
    assert r.Some? && r.value <= 3;
    assert cs[0].code != "CH" && cs[1].code != "CH" && cs[2].code != "CH";
  }

  /** Every code has two letters, so the empty code is never found. */
  lemma EmptyCodeNotFound()
    ensures FindCode(Countries(), "") == None
  {
    CountriesWellFormed();
  }

  /** Selecting by a code from the list finds that very entry. */
  method SelectSwitzerland() returns (picked: string)
    ensures picked == "Switzerland"
  {
    var m := new GameStateManager();
    m.SetState(CountrySelect);
    SwitzerlandIsFourth();
    m.SelectCountry(Country("", "CH", 0.0, 0.0, 0, 0.0, 0.0, 0.0, 0.0));
    picked := m.SelectedCountry().value.name;
  }

  /** A code no country carries (every code has two letters) leaves the
      selection as it was. */
  method SelectUnknown() returns (selected: Option<Country>)
    ensures selected == None
  {
    var m := new GameStateManager();
    EmptyCodeNotFound();
    m.SelectCountry(Country("Nowhere", "", 0.0, 0.0, 0, 0.0, 0.0, 0.0, 0.0));
    selected := m.SelectedCountry();
  }
}
