/** The tree description of the dashboard: species and location packed into
    one display string when the tree list is loaded, and unpacked again by
    splitting on " | " when a tree's status is updated or its latest reading
    is shown. */
module Descriptions {
  import opened JsStrings

  /** What unpacking a description yields. */
  datatype Fields = Fields(species: string, location: string)

  /** Why unpacking fails: the description has no second part, and reading
      `descParts[1].replace` throws. */
  datatype ParseError = MissingLocation

  datatype ParseResult = Parsed(fields: Fields) | Failed(error: ParseError)

  const SpeciesPrefix := "Loài: "
  const LocationPrefix := "Vị trí: "
  const Separator := " | "

  /** `value || 'N/A'` for a string field that may be missing: a missing or
      empty value shows as N/A. */
  function OrNA(value: Option<string>): (shown: string)
    ensures shown != ""
    ensures !Truthy(value) ==> shown == "N/A"
    ensures Truthy(value) ==> shown == value.value
  {
    if Truthy(value) then value.value else "N/A"
  }

  /** The description `fetchTrees` builds from a tree record. */
  function Describe(species: Option<string>, location: Option<string>): string
  {
    SpeciesPrefix + OrNA(species) + Separator + LocationPrefix + OrNA(location)
  }

  /** `updateTreeStatus`: split on " | ", strip the first "Loài: " from the first
      part and the first "Vị trí: " from the second. */
  function ParseDescription(description: string): (r: ParseResult)
    ensures r.Failed? <==> Free(description, Separator)
  {
    var parts := Split(description, Separator);
    if |parts| < 2 then Failed(MissingLocation)
    else
      assert !Free(description, Separator);
      Parsed(Fields(ReplaceFirst(parts[0], SpeciesPrefix, ""), ReplaceFirst(parts[1], LocationPrefix, "")))
  }

  /** `fetchLatestReading`: the location of the selected tree, or "--" when the
      tree is not in the list. */
  function LatestReadingLocation(description: Option<string>): (r: Option<string>)
    ensures description.None? ==> r == Some("--")
    ensures description.Some? ==>
      (r.None? <==> ParseDescription(description.value).Failed?) &&
      (r.Some? ==> r.value == ParseDescription(description.value).fields.location)
  {
    if description.None? then Some("--")
    else
      match ParseDescription(description.value)
      case Failed(_) => None
      case Parsed(fields) => Some(fields.location)
  }

  /** A description built from a tree gives back the displayed species and location,
      when no " | " can be found before the separator's own and none in
      the location part. */
  lemma {:induction false} DescribeRoundTrip(species: Option<string>, location: Option<string>)
    requires Free(SpeciesPrefix + OrNA(species) + " |", Separator)
    requires Free(LocationPrefix + OrNA(location), Separator)
    ensures ParseDescription(Describe(species, location)) == Parsed(Fields(OrNA(species), OrNA(location)))
  {
    var a := SpeciesPrefix + OrNA(species);
    var b := LocationPrefix + OrNA(location);
    assert Separator[..|Separator| - 1] == " |";
    SplitAtFirst(a, Separator, b);
    assert Describe(species, location) == a + Separator + b;
    StripPrefix(SpeciesPrefix, OrNA(species));
    StripPrefix(LocationPrefix, OrNA(location));
  }

  /** A species or location free of '|' always round-trips. */
  lemma NoBarRoundTrip(species: Option<string>, location: Option<string>)
    requires '|' !in OrNA(species) && '|' !in OrNA(location)
    ensures ParseDescription(Describe(species, location)) == Parsed(Fields(OrNA(species), OrNA(location)))
  {
    BarFree(SpeciesPrefix + OrNA(species) + " |");
    BarFree(LocationPrefix + OrNA(location));
    DescribeRoundTrip(species, location);
  }

  /** Text whose only '|' (if any) is its last character holds no " | ". */
  lemma BarFree(s: string)
    requires forall i :: 0 <= i < |s| - 1 ==> s[i] != '|'
    ensures Free(s, Separator)
  {
    forall i | 0 <= i <= |s| - |Separator|
      ensures !OccursAt(s, Separator, i)
    {
      assert s[i..i + |Separator|][1] == s[i + 1] != '|';
    }
  }

  /** Leaving " | " out of both fields is not enough: a species that starts with
      "| " comes back as "Loài:", because the species prefix ends in a space. */
  lemma {:induction false} BarSpeciesIsCut(rest: string, location: Option<string>)
    ensures var species := "| " + rest;
      var r := ParseDescription(Describe(Some(species), location));
      r.Parsed? && r.fields.species == "Loài:" != species
  {
    var d := Describe(Some("| " + rest), location);
    var tail := rest + Separator + LocationPrefix + OrNA(location);
    BarSpeciesDescription(rest, location);
    assert Separator[..|Separator| - 1] == " |";
    BarFree("Loài: |");
    assert "Loài:" + " |" == "Loài: |";
    SplitFirst("Loài:", Separator, tail);
    assert Split(d, Separator)[0] == "Loài:";
  }

  /** The description of such a species, regrouped around its first " | ". */
  lemma BarSpeciesDescription(rest: string, location: Option<string>)
    ensures Describe(Some("| " + rest), location) == "Loài:" + Separator + (rest + Separator + LocationPrefix + OrNA(location))
  {
    assert SpeciesPrefix + ("| " + rest) == "Loài:" + Separator + rest;
  }

  /** Such a species need not contain " | " itself. */
  lemma BarSpeciesExample(location: Option<string>)
    ensures Free("| x", Separator)
    ensures var r := ParseDescription(Describe(Some("| x"), location));
      r.Parsed? && r.fields.species != "| x"
  {
    assert "| x"[0..3][0] == '|';
    assert "| " + "x" == "| x";
    BarSpeciesIsCut("x", location);
  }
}
