/**
 * The add-event form (`AddEventScreen`): its remembered fields, the handlers that edit them,
 * and the rules that decide what the form shows and whether it may be saved.
 */
module AddEventScreen {
  import opened Wrappers
  import opened KotlinText
  import opened Domain
  import NominatimMappers

  type DoubleParser = NominatimMappers.DoubleParser

  // ---------------------------------------------------------------------------------------
  // The price pattern ^\d{0,8}(\.\d{0,2})?$, with `\d` read as an ASCII digit 0-9 (as on
  // desktop Java; Android's ICU-based regex also accepts other Unicode decimal digits), and
  // `matches` must consume the whole text
  // ---------------------------------------------------------------------------------------

  predicate IsAsciiDigit(c: char) { '0' <= c <= '9' }

  predicate AllDigits(s: string) {
    forall i | 0 <= i < |s| :: IsAsciiDigit(s[i])
  }

  /**
   * `s[..k]` is the integer part (at most 8 digits), and what follows is either nothing or
   * a '.' with at most 2 digits after it.
   */
  predicate SplitsAsPrice(s: string, k: nat)
    requires k <= |s|
  {
    && k <= 8
    && AllDigits(s[..k])
    && (k == |s| || (s[k] == '.' && |s| - (k + 1) <= 2 && AllDigits(s[k + 1..])))
  }

  /** `s.matches(Regex("^\\d{0,8}(\\.\\d{0,2})?$"))`, declaratively. */
  predicate MatchesPricePattern(s: string) {
    exists k: nat | k <= |s| :: SplitsAsPrice(s, k)
  }

  /** A split of a price can only happen where its leading run of digits ends. */
  lemma SplitIsAtDigitRunEnd(s: string, i: nat, k: nat)
    requires i <= |s| && AllDigits(s[..i]) && (i == |s| || !IsAsciiDigit(s[i]))
    requires k <= |s| && SplitsAsPrice(s, k)
    ensures k == i
  {
  }

  /** A character-by-character matcher for the price pattern. */
  method ScanPrice(s: string) returns (ok: bool)
    ensures ok == MatchesPricePattern(s)
  {
    var i := 0;
    while i < |s| && IsAsciiDigit(s[i])
      invariant 0 <= i <= |s|
      invariant AllDigits(s[..i])
    {
      i := i + 1;
    }
    forall k: nat | k <= |s| && SplitsAsPrice(s, k) ensures k == i {
      SplitIsAtDigitRunEnd(s, i, k);
    }
    if i > 8 {
      return false;
    }
    if i == |s| {
      assert SplitsAsPrice(s, i);
      return true;
    }
    if s[i] != '.' {
      return false;
    }
    var j := i + 1;
    while j < |s| && IsAsciiDigit(s[j])
      invariant i + 1 <= j <= |s|
      invariant forall m | i + 1 <= m < j :: IsAsciiDigit(s[m])
    {
      j := j + 1;
    }
    ok := j == |s| && j - (i + 1) <= 2;
    if j < |s| {
      assert s[i + 1..][j - (i + 1)] == s[j];
    } else {
      assert AllDigits(s[i + 1..]);
    }
    assert ok ==> SplitsAsPrice(s, i);
  }

  /** The empty price matches the pattern, so the filter's `isEmpty()` test adds nothing. */
  lemma EmptyPriceMatches()
    ensures MatchesPricePattern("")
  {
    assert SplitsAsPrice("", 0);
  }

  /**
   * A price of the pattern has at most 11 characters, all of them ASCII digits or '.',
   * with at most one '.' and at most 8 digits before it.
   */
  lemma PriceShape(s: string)
    requires MatchesPricePattern(s)
    ensures |s| <= 11
    ensures forall i | 0 <= i < |s| :: IsAsciiDigit(s[i]) || s[i] == '.'
    ensures forall i, j | 0 <= i < j < |s| :: !(s[i] == '.' && s[j] == '.')
    ensures forall i | 0 <= i < |s| && s[i] == '.' :: i <= 8 && |s| - (i + 1) <= 2
    ensures '.' !in s ==> |s| <= 8
  {
  }

  /**
   * What `String.toDoubleOrNull` does on texts of the price pattern: it rejects "" and "."
   * and reads every other one as a number, which can only be non-negative.
   */
  ghost predicate ReadsPricesAsNonNegative(toDoubleOrNull: DoubleParser) {
    && toDoubleOrNull("") == None
    && toDoubleOrNull(".") == None
    && forall s | MatchesPricePattern(s) && s != "" && s != "." ::
         toDoubleOrNull(s).Some? && toDoubleOrNull(s).value >= 0.0
  }

  // ---------------------------------------------------------------------------------------
  // Display rules
  // ---------------------------------------------------------------------------------------

  /** The place-search state the form observes; how it is produced is not part of this model. */
  datatype PlaceUiState = PlaceUiState(
    isLoading: bool,
    error: Option<string>,
    suggestions: seq<PlaceSuggestion>)

  /** The text of the line under the location field: the search error, or "no results". */
  datatype StatusLine = ErrorText(text: string) | NoResults

  /** The error / no-results line, when it is shown. */
  function StatusLineOf(ui: PlaceUiState, location: string, hasSelection: bool): (r: Option<StatusLine>)
    ensures r.Some? ==> !ui.isLoading && !hasSelection
    ensures r.None? <==>
      ui.isLoading || hasSelection || (ui.error.None? && (|location| < 3 || ui.suggestions != []))
    ensures r.Some? ==> r.value == (if ui.error.Some? then ErrorText(ui.error.value) else NoResults)
  {
    if !ui.isLoading && !hasSelection && (ui.error.Some? || (|location| >= 3 && ui.suggestions == [])) then
      Some(if ui.error.Some? then ErrorText(ui.error.value) else NoResults)
    else
      None
  }

  /** `listOfNotNull(s.title, s.subtitle).joinToString(", ")`: the location text a pick writes. */
  function SelectionText(s: PlaceSuggestion): (r: string)
    ensures s.subtitle.None? ==> r == s.title
    ensures s.subtitle.Some? ==> r == s.title + ", " + s.subtitle.value
  {
    var parts := ListOfNotNull2(Some(s.title), s.subtitle);
    if s.subtitle.Some? then
      assert parts == [s.title, s.subtitle.value];
      assert JoinToString(parts, ", ") == s.title + ", " + JoinToString([s.subtitle.value], ", ");
      JoinToString(parts, ", ")
    else
      JoinToString(parts, ", ")
  }

  /** Picking ("Tartu, Estonia", "Tartumaa") writes "Tartu, Estonia, Tartumaa". */
  lemma SelectionTextExample()
    ensures SelectionText(PlaceSuggestion("Tartu, Estonia", Some("Tartumaa"), 59.43, 24.75))
         == "Tartu, Estonia, Tartumaa"
  {
  }

  // ---------------------------------------------------------------------------------------
  // The form
  // ---------------------------------------------------------------------------------------

  class AddEventForm {
    var name: string
    var date: Option<Date>
    var price: string
    var description: string
    var location: string
    /** Coordinates of the picked suggestion. */
    var selectedLat: Option<real>
    var selectedLon: Option<real>

    /** The stored price always has the price pattern. */
    ghost predicate Valid()
      reads this
    {
      IsPriceValid()
    }

    constructor ()
      ensures Valid()
      ensures name == "" && date == None && price == "" && description == "" && location == ""
      ensures selectedLat == None && selectedLon == None
    {
      name, date, price, description, location := "", None, "", "", "";
      selectedLat, selectedLon := None, None;
      EmptyPriceMatches();
    }

    /** A suggestion has been picked: both coordinates are known. */
    predicate HasSelection(): (r: bool)
      reads this
      ensures r <==> selectedLat != None && selectedLon != None
    {
      selectedLat.Some? && selectedLon.Some?
    }

    /** The price is empty or a number of the price pattern. */
    predicate IsPriceValid(): (r: bool)
      reads this
      ensures price == "" ==> r
      ensures r ==> |price| <= 11 && forall i | 0 <= i < |price| :: IsAsciiDigit(price[i]) || price[i] == '.'
    {
      EmptyPriceMatches();
      if MatchesPricePattern(price) then PriceShape(price); true else false
    }

    /**
     * `price.toDoubleOrNull()?.let { it >= 0 } ?: false`; on a price of the pattern it fails
     * only for "" and ".".
     */
    predicate IsPricePositive(toDoubleOrNull: DoubleParser): (r: bool)
      reads this
      ensures r ==> toDoubleOrNull(price).Some?
      ensures ReadsPricesAsNonNegative(toDoubleOrNull) && IsPriceValid() ==>
        (r <==> price != "" && price != ".")
    {
      toDoubleOrNull(price).Some? && toDoubleOrNull(price).value >= 0.0
    }

    /** Every field filled in, with a readable non-negative price of the pattern. */
    predicate IsFormValid(toDoubleOrNull: DoubleParser): (r: bool)
      reads this
      ensures r ==> name != "" && description != "" && location != ""
      ensures r ==> date.Some? && toDoubleOrNull(price).Some? && |price| <= 11
    {
      && !IsBlank(name)
      && date.Some?
      && IsPriceValid()
      && IsPricePositive(toDoubleOrNull)
      && !IsBlank(description)
      && !IsBlank(location)
    }

    /**
     * The save button's `enabled` flag: when it is set, the click's `date!!`, the price's
     * `toDouble()` and the coordinates all have values.
     */
    predicate SaveEnabled(toDoubleOrNull: DoubleParser): (r: bool)
      reads this
      ensures r ==> date.Some? && toDoubleOrNull(price).Some? && toDoubleOrNull(price).value >= 0.0
      ensures r ==> selectedLat.Some? && selectedLon.Some?
    {
      IsFormValid(toDoubleOrNull) && HasSelection()
    }

    method OnNameChange(text: string)
      modifies this`name
      ensures name == text
    {
      name := text;
    }

    /** The date and time picked in the pickers. */
    method OnDateTimePicked(d: Date)
      modifies this`date
      ensures date == Some(d)
    {
      date := Some(d);
    }

    /** The price field's `onValueChange`: an edit is kept only if it has the price pattern. */
    method OnPriceChange(newValue: string)
      requires Valid()
      modifies this`price
      ensures Valid()
      ensures MatchesPricePattern(newValue) ==> price == newValue
      ensures !MatchesPricePattern(newValue) ==> price == old(price)
    {
      var matches := ScanPrice(newValue);
      if newValue == [] || matches {
        EmptyPriceMatches();
        price := newValue;
      }
    }

    method OnDescriptionChange(text: string)
      modifies this`description
      ensures description == text
    {
      description := text;
    }

    /** `onLocationChange`: typing forgets the picked coordinates. */
    method OnLocationChange(text: string)
      modifies this`location, this`selectedLat, this`selectedLon
      ensures location == text
      ensures selectedLat == None && selectedLon == None
      ensures !HasSelection()
    {
      location := text;
      selectedLat := None;
      selectedLon := None;
    }

    /** A click on a suggestion row. */
    method OnSuggestionSelected(s: PlaceSuggestion)
      modifies this`location, this`selectedLat, this`selectedLon
      ensures location == SelectionText(s)
      ensures selectedLat == Some(s.latitude) && selectedLon == Some(s.longitude)
      ensures HasSelection()
    {
      location := SelectionText(s);
      selectedLat := Some(s.latitude);
      selectedLon := Some(s.longitude);
    }

    /** The event the save button hands to the view model. */
    method Save(toDoubleOrNull: DoubleParser) returns (e: Event)
      requires SaveEnabled(toDoubleOrNull)
      ensures e.name == name && Some(e.date) == date && e.description == description
      ensures e.location == location && e.latitude == selectedLat && e.longitude == selectedLon
      ensures Some(e.price) == toDoubleOrNull(price) && e.price >= 0.0
      ensures e.latitude.Some? && e.longitude.Some?
    {
      e := Event(
        id := 0,
        name := name,
        date := date.value,
        price := toDoubleOrNull(price).value,
        description := description,
        location := location,
        latitude := selectedLat,
        longitude := selectedLon);
    }

    /**
     * With a parser that behaves as `toDoubleOrNull` does on prices, the form is valid exactly
     * when the texts are non-blank, a date is set and the price is neither "" nor ".".
     */
    lemma FormValidity(toDoubleOrNull: DoubleParser)
      requires Valid() && ReadsPricesAsNonNegative(toDoubleOrNull)
      ensures IsFormValid(toDoubleOrNull) <==>
        && !IsBlank(name) && date.Some? && !IsBlank(description) && !IsBlank(location)
        && price != "" && price != "."
    {
    }
  }
}
