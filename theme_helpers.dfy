/** The theme's unit helpers: append a CSS unit to a raw number. */
module ThemeHelpers {
  import opened Wrappers
  import opened JsText

  /** addUnit(unit)(rawValue): `${rawValue}${unit}`, for an integer raw value. */
  function AddUnit(unit: string): int -> string {
    (rawValue: int) => NumText(rawValue) + unit
  }

  function AddRemUnit(rawValue: int): string {
    AddUnit("rem")(rawValue)
  }

  function AddPxUnit(rawValue: int): string {
    AddUnit("px")(rawValue)
  }

  /** Reads the raw value back from a value with the given unit. */
  function ParseWithUnit(text: string, unit: string): Option<int> {
    if |text| >= |unit| && text[|text| - |unit|..] == unit then ParseNum(text[..|text| - |unit|]) else None
  }

  /** The result is the number's text followed by the unit, and the number reads back from it. */
  lemma AddUnitShape(unit: string, rawValue: int)
    ensures var t := AddUnit(unit)(rawValue);
      && |t| == |NumText(rawValue)| + |unit|
      && t[..|NumText(rawValue)|] == NumText(rawValue)
      && t[|NumText(rawValue)|..] == unit
      && ParseWithUnit(t, unit) == Some(rawValue)
  {
    var t := AddUnit(unit)(rawValue);
    assert t[..|t| - |unit|] == NumText(rawValue);
    NumTextRoundTrip(rawValue);
  }

  /** addRemUnit and addPxUnit append "rem" and "px". */
  lemma RemAndPx(rawValue: int)
    ensures AddRemUnit(rawValue) == NumText(rawValue) + "rem"
    ensures AddPxUnit(rawValue) == NumText(rawValue) + "px"
    ensures ParseWithUnit(AddRemUnit(rawValue), "rem") == Some(rawValue)
    ensures ParseWithUnit(AddPxUnit(rawValue), "px") == Some(rawValue)
  {
    AddUnitShape("rem", rawValue);
    AddUnitShape("px", rawValue);
  }
}
