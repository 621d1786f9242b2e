/**
 * The Nominatim search result as the HTTP layer decodes it, and its mapping to a
 * `PlaceSuggestion` (`NominatimPlaceDto.toSuggestion`).
 */
module NominatimMappers {
  import opened Wrappers
  import opened KotlinText
  import opened Domain

  /** The structured address subset of a result; every field is optional. */
  datatype AddressDto = AddressDto(
    houseNumber: Option<string>,
    road: Option<string>,
    city: Option<string>,
    town: Option<string>,
    village: Option<string>,
    state: Option<string>,
    postcode: Option<string>,
    country: Option<string>)

  /** One search result; coordinates arrive as decimal strings. */
  datatype NominatimPlaceDto = NominatimPlaceDto(
    placeId: int,
    displayName: string,
    lat: string,
    lon: string,
    address: Option<AddressDto>)

  /**
   * `String.toDoubleOrNull`, which is not modelled: every operation that needs it takes
   * the parser as an argument.
   */
  type DoubleParser = string -> Option<real>

  /** `address?.city` and friends: absent when the address itself is absent. */
  function City(a: Option<AddressDto>): Option<string> { if a.Some? then a.value.city else None }
  function Town(a: Option<AddressDto>): Option<string> { if a.Some? then a.value.town else None }
  function Village(a: Option<AddressDto>): Option<string> { if a.Some? then a.value.village else None }
  function Country(a: Option<AddressDto>): Option<string> { if a.Some? then a.value.country else None }

  /** `address?.city ?: address?.town ?: address?.village` */
  function CityLike(a: Option<AddressDto>): (r: Option<string>)
    ensures a.None? ==> r.None?
    ensures City(a).Some? ==> r == City(a)
    ensures City(a).None? && Town(a).Some? ==> r == Town(a)
    ensures City(a).None? && Town(a).None? ==> r == Village(a)
  {
    City(a).OrElse(Town(a)).OrElse(Village(a))
  }

  /**
   * The secondary line: the city-like part and the country joined by ", ", or absent when
   * that text is blank.
   */
  function Subtitle(a: Option<AddressDto>): (r: Option<string>)
    ensures r.None? <==> IsBlank(JoinToString(ListOfNotNull2(CityLike(a), Country(a)), ", "))
  {
    IfBlankNull(JoinToString(ListOfNotNull2(CityLike(a), Country(a)), ", "))
  }

  /** `NominatimPlaceDto.toSuggestion()` */
  function ToSuggestion(dto: NominatimPlaceDto, toDoubleOrNull: DoubleParser): (r: PlaceSuggestion)
    ensures var s := dto.displayName; var k := |SubstringBefore(s, ',')|;
      && k <= |s|
      && ',' !in s[..k]
      && (k == |s| || s[k] == ',')
      && r.title == Trim(s[..k])
    ensures r.subtitle == Subtitle(dto.address)
    ensures toDoubleOrNull(dto.lat).Some? ==> r.latitude == toDoubleOrNull(dto.lat).value
    ensures toDoubleOrNull(dto.lat).None? ==> r.latitude == 0.0
    ensures toDoubleOrNull(dto.lon).Some? ==> r.longitude == toDoubleOrNull(dto.lon).value
    ensures toDoubleOrNull(dto.lon).None? ==> r.longitude == 0.0
  {
    var latD := toDoubleOrNull(dto.lat).GetOr(0.0);
    var lonD := toDoubleOrNull(dto.lon).GetOr(0.0);
    PlaceSuggestion(
      title := Trim(SubstringBefore(dto.displayName, ',')),
      subtitle := Subtitle(dto.address),
      latitude := latD,
      longitude := lonD)
  }

  /** The title is a single comma-free segment of the display name. */
  lemma TitleHasNoComma(dto: NominatimPlaceDto, toDoubleOrNull: DoubleParser)
    ensures ',' !in ToSuggestion(dto, toDoubleOrNull).title
  {
  }

  /** Without a comma the title is the whole display name, trimmed. */
  lemma TitleWithoutComma(dto: NominatimPlaceDto, toDoubleOrNull: DoubleParser)
    requires ',' !in dto.displayName
    ensures ToSuggestion(dto, toDoubleOrNull).title == Trim(dto.displayName)
  {
    var s := dto.displayName;
    assert |SubstringBefore(s, ',')| == |s|;
    assert s[..|s|] == s;
  }

  /** The subtitle in each case of which address parts are present. */
  lemma SubtitleCases(a: Option<AddressDto>)
    ensures var c, n := CityLike(a), Country(a);
      && (c.Some? && n.Some? ==> Subtitle(a) == Some(c.value + ", " + n.value))
      && (c.Some? && n.None? ==> Subtitle(a) == IfBlankNull(c.value))
      && (c.None? && n.Some? ==> Subtitle(a) == IfBlankNull(n.value))
      && (c.None? && n.None? ==> Subtitle(a) == None)
  {
    var c, n := CityLike(a), Country(a);
    if c.Some? && n.Some? {
      var j := c.value + ", " + n.value;
      assert JoinToString([c.value, n.value], ", ") == c.value + ", " + JoinToString([n.value], ", ");
      assert j[|c.value|] == ',';
      assert !IsBlank(j);
    }
  }

  /** Only the display name, the coordinates and the city/town/village/country fields matter. */
  lemma IgnoresOtherFields(d1: NominatimPlaceDto, d2: NominatimPlaceDto, toDoubleOrNull: DoubleParser)
    requires d1.displayName == d2.displayName && d1.lat == d2.lat && d1.lon == d2.lon
    requires City(d1.address) == City(d2.address) && Town(d1.address) == Town(d2.address)
    requires Village(d1.address) == Village(d2.address) && Country(d1.address) == Country(d2.address)
    ensures ToSuggestion(d1, toDoubleOrNull) == ToSuggestion(d2, toDoubleOrNull)
  {
  }

  /** A result for Tartu becomes the suggestion "Tartu" / "Tartu, Estonia". */
  lemma TartuExample(toDoubleOrNull: DoubleParser)
    requires toDoubleOrNull("59.43") == Some(59.43) && toDoubleOrNull("24.75") == Some(24.75)
    ensures var address := AddressDto(None, None, Some("Tartu"), None, None, None, None, Some("Estonia"));
      ToSuggestion(NominatimPlaceDto(1, "Tartu, Estonia", "59.43", "24.75", Some(address)), toDoubleOrNull)
      == PlaceSuggestion("Tartu", Some("Tartu, Estonia"), 59.43, 24.75)
  {
    var address := AddressDto(None, None, Some("Tartu"), None, None, None, None, Some("Estonia"));
    TartuTitle();
    TartuSubtitle(address);
  }

  /** The title half of `TartuExample`. */
  lemma TartuTitle()
    ensures Trim(SubstringBefore("Tartu, Estonia", ',')) == "Tartu"
  {
    var name := "Tartu, Estonia";
    assert name[..5] == "Tartu";
    SubstringBeforeAt(name, ',', 5);
    TrimUnpadded("Tartu");
  }

  /** The subtitle half of `TartuExample`. */
  lemma TartuSubtitle(address: AddressDto)
    requires address == AddressDto(None, None, Some("Tartu"), None, None, None, None, Some("Estonia"))
    ensures Subtitle(Some(address)) == Some("Tartu, Estonia")
  {
    SubtitleCases(Some(address));
    assert CityLike(Some(address)) == Some("Tartu");
    assert "Tartu" + ", " + "Estonia" == "Tartu, Estonia";
  }
}
