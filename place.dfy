/** The `Place` record and its line parser: split on tabs, then transform
    element `i` by entry `i` of a fixed 19-entry table. */
module Places {
  import opened Wrappers
  import opened Text
  import opened Numbers

  /** One entry of the transformation table; `Identity` stands for the
      `null` entry that leaves the raw element as it is. */
  datatype Transformation = Identity | SplitComma | ParseInt | ParseFloat | ParseDate

  /** The value a transformation produces from a raw element. */
  datatype Field = Raw(text: string) | Names(items: seq<string>) | Num(number: Number)

  /** The library parsers `parseInt`, `parseFloat` and `Date.parse`, taken as
      given functions. */
  datatype Library = Library(
    parseInt: string -> Number,
    parseFloat: string -> Number,
    parseDate: string -> Number)

  /** Why a line cannot be turned into a place: the map reached an index past the
      table, where the entry is `undefined` and calling it throws a TypeError. */
  datatype ParseError = NotAFunction(index: nat)

  /** A parsed line. Every field is `None` (`undefined`) when the line had too few
      elements to reach it. */
  datatype Place = Place(
    id: Option<Field>,
    name: Option<Field>,
    asciiName: Option<Field>,
    alternativeNames: Option<Field>,
    latitude: Option<Field>,
    longitude: Option<Field>,
    featureClass: Option<Field>,
    featureCode: Option<Field>,
    countryCode: Option<Field>,
    alternativeCountryCode: Option<Field>,
    adminCode1: Option<Field>,
    adminCode2: Option<Field>,
    adminCode3: Option<Field>,
    adminCode4: Option<Field>,
    population: Option<Field>,
    elevation: Option<Field>,
    digitalElevationModel: Option<Field>,
    timezone: Option<Field>,
    modificationDate: Option<Field>)

  /** The number of declared fields, and so of table entries. */
  const FieldCount := 19

  /** The table, one entry per field in declaration order. */
  const Transformations: seq<Transformation> := [
    Identity,    // id
    Identity,    // name
    Identity,    // asciiName
    SplitComma,  // alternativeNames
    ParseFloat,  // latitude
    ParseFloat,  // longitude
    Identity,    // featureClass
    Identity,    // featureCode
    Identity,    // countryCode
    Identity,    // alternativeCountryCode
    Identity,    // adminCode1
    Identity,    // adminCode2
    Identity,    // adminCode3
    Identity,    // adminCode4
    ParseInt,    // population
    ParseInt,    // elevation
    ParseInt,    // digitalElevationModel
    Identity,    // timezone
    ParseDate    // modificationDate
  ]

  /** Looking up the table at `i`: past its end the lookup is `undefined`. */
  function Entry(i: nat): (t: Option<Transformation>)
    ensures t.Some? <==> i < FieldCount
  {
    if i < |Transformations| then Some(Transformations[i]) else None
  }

  /** Applies one table entry to a raw element. */
  function Apply(lib: Library, t: Transformation, e: string): Field {
    match t
    case Identity => Raw(e)
    case SplitComma => Names(Split(e, ','))
    case ParseInt => Num(lib.parseInt(e))
    case ParseFloat => Num(lib.parseFloat(e))
    case ParseDate => Num(lib.parseDate(e))
  }

  /** The index-aware `map` over `elements[i..]`: each element goes through the
      table entry at its own index, and the first index with no entry throws. */
  function MapFrom(lib: Library, elements: seq<string>, i: nat): (r: Result<seq<Field>, ParseError>)
    requires i <= |elements|
    decreases |elements| - i
    ensures r.Failure? <==> i < |elements| && |elements| > FieldCount
    ensures r.Failure? ==> r.error == NotAFunction(if i < FieldCount then FieldCount else i)
    ensures r.Success? ==> |r.value| == |elements| - i
    ensures r.Success? ==> forall k :: i <= k < |elements| ==>
              r.value[k - i] == Apply(lib, Transformations[k], elements[k])
  {
    if i == |elements| then Success([])
    else
      match Entry(i)
      case None => Failure(NotAFunction(i))
      case Some(t) =>
        var rest :- MapFrom(lib, elements, i + 1);
        Success([Apply(lib, t, elements[i])] + rest)
  }

  /** The value destructuring gives the `i`-th name: `undefined` past the end. */
  function Slot(fields: seq<Field>, i: nat): Option<Field> {
    if i < |fields| then Some(fields[i]) else None
  }

  /** The destructuring assignment of the mapped elements to the fields. */
  function Destructure(fields: seq<Field>): Place {
    Place(Slot(fields, 0), Slot(fields, 1), Slot(fields, 2), Slot(fields, 3),
          Slot(fields, 4), Slot(fields, 5), Slot(fields, 6), Slot(fields, 7),
          Slot(fields, 8), Slot(fields, 9), Slot(fields, 10), Slot(fields, 11),
          Slot(fields, 12), Slot(fields, 13), Slot(fields, 14), Slot(fields, 15),
          Slot(fields, 16), Slot(fields, 17), Slot(fields, 18))
  }

  /** The `i`-th field of a place, in declaration order. */
  function FieldAt(p: Place, i: nat): Option<Field>
    requires i < FieldCount
  {
    match i
    case 0 => p.id
    case 1 => p.name
    case 2 => p.asciiName
    case 3 => p.alternativeNames
    case 4 => p.latitude
    case 5 => p.longitude
    case 6 => p.featureClass
    case 7 => p.featureCode
    case 8 => p.countryCode
    case 9 => p.alternativeCountryCode
    case 10 => p.adminCode1
    case 11 => p.adminCode2
    case 12 => p.adminCode3
    case 13 => p.adminCode4
    case 14 => p.population
    case 15 => p.elevation
    case 16 => p.digitalElevationModel
    case 17 => p.timezone
    case 18 => p.modificationDate
  }

  /** What field `i` of a place parsed from `elements` holds. */
  function Expected(lib: Library, elements: seq<string>, i: nat): Option<Field>
    requires i < FieldCount
  {
    if i < |elements| then Some(Apply(lib, Transformations[i], elements[i])) else None
  }

  /** `new Place(line)`: fails exactly when the line has more than 19
      tab-separated elements; otherwise field `i` is element `i` through table
      entry `i`, and fields past the last element are unset. */
  function ParsePlace(lib: Library, line: string): (r: Result<Place, ParseError>)
    ensures r.Failure? <==> |Split(line, '\t')| > FieldCount
    ensures r.Failure? <==> multiset(line)['\t'] >= FieldCount
    ensures r.Failure? ==> r.error == NotAFunction(FieldCount)
    ensures r.Success? ==> Positional(lib, Split(line, '\t'), r.value)
  {
    SplitCount(line, '\t');
    var elements := Split(line, '\t');
    var fields :- MapFrom(lib, elements, 0);
    Success(Destructure(fields))
  }

  /** What an untransformed field holds: the raw element, or `undefined`. */
  function RawAt(elements: seq<string>, i: nat): Option<Field> {
    if i < |elements| then Some(Raw(elements[i])) else None
  }

  /** The fields with a `null` table entry hold their raw element unchanged; in
      particular `id` stays text. */
  lemma UntransformedFields(lib: Library, elements: seq<string>, p: Place)
    requires Positional(lib, elements, p)
    ensures p.id == RawAt(elements, 0)
    ensures p.name == RawAt(elements, 1)
    ensures p.asciiName == RawAt(elements, 2)
    ensures p.featureClass == RawAt(elements, 6)
    ensures p.featureCode == RawAt(elements, 7)
    ensures p.countryCode == RawAt(elements, 8)
    ensures p.alternativeCountryCode == RawAt(elements, 9)
    ensures p.adminCode1 == RawAt(elements, 10)
    ensures p.adminCode2 == RawAt(elements, 11)
    ensures p.adminCode3 == RawAt(elements, 12)
    ensures p.adminCode4 == RawAt(elements, 13)
    ensures p.timezone == RawAt(elements, 17)
  {
    forall i | i in {0, 1, 2, 6, 7, 8, 9, 10, 11, 12, 13, 17}
      ensures FieldAt(p, i) == RawAt(elements, i)
    {
      assert FieldAt(p, i) == Expected(lib, elements, i);
    }
    assert FieldAt(p, 0) == p.id;
  }

  /** Field `i` of `p` is element `i` of `elements` through table entry `i`. */
  ghost predicate Positional(lib: Library, elements: seq<string>, p: Place) {
    forall i :: 0 <= i < FieldCount ==> FieldAt(p, i) == Expected(lib, elements, i)
  }

  /** The coordinates hold `parseFloat` of their elements. */
  lemma ParsedCoordinates(lib: Library, elements: seq<string>, p: Place)
    requires Positional(lib, elements, p)
    ensures |elements| > 4 ==> p.latitude == Some(Num(lib.parseFloat(elements[4])))
    ensures |elements| > 5 ==> p.longitude == Some(Num(lib.parseFloat(elements[5])))
  {
    assert FieldAt(p, 4) == Expected(lib, elements, 4);
    assert FieldAt(p, 5) == Expected(lib, elements, 5);
  }

  /** The integer fields hold `parseInt` of their elements, and the
      modification date `Date.parse` of its element. */
  lemma ParsedNumbers(lib: Library, elements: seq<string>, p: Place)
    requires Positional(lib, elements, p)
    ensures |elements| > 14 ==> p.population == Some(Num(lib.parseInt(elements[14])))
    ensures |elements| > 15 ==> p.elevation == Some(Num(lib.parseInt(elements[15])))
    ensures |elements| > 16 ==> p.digitalElevationModel == Some(Num(lib.parseInt(elements[16])))
    ensures |elements| > 18 ==> p.modificationDate == Some(Num(lib.parseDate(elements[18])))
  {
    assert FieldAt(p, 14) == Expected(lib, elements, 14);
    assert FieldAt(p, 15) == Expected(lib, elements, 15);
    assert FieldAt(p, 16) == Expected(lib, elements, 16);
    assert FieldAt(p, 18) == Expected(lib, elements, 18);
  }

  /** `alternativeNames` is the comma-split of element 3: comma-free names that
      join back into the raw element. */
  lemma AlternativeNamesRoundTrip(lib: Library, elements: seq<string>, p: Place)
    requires Positional(lib, elements, p)
    requires |elements| > 3
    ensures p.alternativeNames.Some? && p.alternativeNames.value.Names?
    ensures Join(p.alternativeNames.value.items, ',') == elements[3]
    ensures forall k :: 0 <= k < |p.alternativeNames.value.items| ==> ',' !in p.alternativeNames.value.items[k]
  {
    assert FieldAt(p, 3) == Expected(lib, elements, 3);
    JoinSplit(elements[3], ',');
  }

  /** A line made of 19 tab-free elements parses, and every field is its element
      through its table entry. */
  lemma ParseWellFormedLine(lib: Library, elements: seq<string>)
    requires |elements| == FieldCount
    requires forall k :: 0 <= k < |elements| ==> '\t' !in elements[k]
    ensures ParsePlace(lib, Join(elements, '\t')).Success?
    ensures Positional(lib, elements, ParsePlace(lib, Join(elements, '\t')).value)
  {
    SplitJoin(elements, '\t');
  }

  /** `parseInt` as the decimal-prefix reading, with the other two parsers given. */
  function DecimalLibrary(parseFloat: string -> Number, parseDate: string -> Number): Library
  {
    Library(ParseIntPrefix, parseFloat, parseDate)
  }

  /** With decimal `parseInt`, a population written as a numeral, possibly
      followed by text that does not start with a digit, is read as that integer. */
  lemma DecimalPopulation(parseFloat: string -> Number, parseDate: string -> Number,
                          elements: seq<string>, p: Place, n: int, rest: string)
    requires Positional(DecimalLibrary(parseFloat, parseDate), elements, p)
    requires rest == [] || !IsDigit(rest[0])
    requires |elements| > 14 && elements[14] == SignedDecimal(n) + rest
    ensures p.population == Some(Num(Finite(n as real)))
  {
    ParsedNumbers(DecimalLibrary(parseFloat, parseDate), elements, p);
    ParseIntOfDecimal(n, rest);
  }
}
