# geonames in Dafny

A model of the GeoNames reader in `src/index.ts`. The reader turns each line of
a tab-separated gazetteer file into a `Place`. It then answers "which place is
nearest to this coordinate" by scanning every place once. The model has six
modules:

- `Wrappers`: `Option`, which stands for JavaScript's `undefined`, and `Result`, which stands for a thrown error.
- `Text`: `split` and `join` with a one-character separator, proved to be inverses.
- `Numbers`: JavaScript numbers as reals plus NaN and the infinities, and a decimal-prefix model of `parseInt`.
- `Places`: the 19-entry transformation table and the line parser `ParsePlace`. The parser splits the line on tabs, maps element `i` through table entry `i`, and destructures the result into the 19 fields.
- `Geo`: the clamp and the great-circle `Distance`. The trigonometric functions are parameters.
- `GeoNames`: the dataset as a sequence of lines (`Generator`), the nearest-place scan `Nearest` proved against `NearestSpec`, and the dataset query `Query`.

Points where the code behaves differently from what its declarations suggest:

- `id` is declared `number` (src/index.ts:48), but its table entry is `null`, so it stays the raw text of element 0.
- The code never checks the field count. A line with fewer than 19 elements parses, and the missing fields are `None`. A line with more than 19 elements fails with `NotAFunction(19)`: the map reaches entry 19, which is `undefined`, and calling it throws a TypeError.
- `modificationDate` is declared `Date` (src/index.ts:74), but `Date.parse` gives a number, or NaN for bad input. It never raises an error.

## Model

Four definitions carry no contract of their own. The rows that use them cover them:

- `Places.Transformations` is the literal table of src/index.ts:48-74.
- `Places.Apply` is the `=== null ? e : transformations[i]!(e)` dispatch at src/index.ts:83.
- `Places.Destructure` is the destructuring assignment at src/index.ts:79-82.
- `Geo.CentralCosine` is the cosine sum at src/index.ts:101-102.

The `MapFrom`, `ParsePlace`, field-lemma and `Distance` rows state what these definitions do.

| member | source | states |
|---|---|---|
| Text.Split | src/index.ts:77 | there is at least one piece, even for the empty line, and no piece contains the separator |
| Text.SplitCount | src/index.ts:77 | there is one more piece than there are separators in the line |
| Text.JoinSplit | src/index.ts:77 | joining the pieces of a line with the separator gives back the line |
| Text.SplitJoin | src/index.ts:77 | splitting the join of at least one separator-free piece gives back the pieces |
| Numbers.ParseIntPrefix | src/index.ts:68-71 | decimal `parseInt` gives NaN exactly when no digit follows the optional sign, never an infinity, and the sign of the result follows the leading `-` |
| Numbers.ParseIntOfDecimal | src/index.ts:68-71 | `parseInt` reads back the numeral of any integer and ignores trailing text that does not start with a digit |
| Places.Entry | src/index.ts:43-45 | the table has an entry at exactly the indices below 19; past that the lookup is `undefined` |
| Places.MapFrom | src/index.ts:83 | the index-aware map fails exactly when an element lies past the table, with the error at index 19 (or the starting index, if that is later); otherwise each element goes through the entry at its own index |
| Places.ParsePlace | src/index.ts:76-84 | parsing fails exactly when the line has more than 19 elements, that is 19 or more tabs, and the error is at index 19; otherwise field `i` is element `i` through entry `i`, and fields past the last element are unset |
| Places.UntransformedFields | src/index.ts:48-73 | the twelve fields with a `null` entry, `id` included, hold their raw element or are unset |
| Places.ParsedCoordinates | src/index.ts:54-55 | latitude and longitude hold `parseFloat` of elements 4 and 5 |
| Places.ParsedNumbers | src/index.ts:68-74 | population, elevation and digital elevation model hold `parseInt` of elements 14 to 16, and the modification date holds `Date.parse` of element 18 |
| Places.AlternativeNamesRoundTrip | src/index.ts:52 | `alternativeNames` is a list of comma-free names that join with `,` back into element 3 |
| Places.ParseWellFormedLine | src/index.ts:76-84 | a line joined from 19 tab-free elements parses, and every field is its element through its entry |
| Places.DecimalPopulation | src/index.ts:68 | with decimal `parseInt`, a population written as a numeral, possibly followed by trailing text, is read as that integer |
| Geo.Clamp | src/index.ts:100 | the clamp lies in [-1, 1], is the identity inside that range, and gives the nearer end outside it |
| Geo.Distance | src/index.ts:93-105 | equal coordinates are exactly 0 apart; `acos` is only applied inside its domain; the distance is non-negative when `acos` is |
| Geo.DistanceSymmetric | src/index.ts:96-104 | when cosine is even, the distance from a to b equals the distance from b to a |
| Geo.QuarterCircumference | src/index.ts:96-104 | from (0, 0) to (0, 90) is π/2 times the earth's radius, given the usual trigonometric values |
| GeoNames.Generator | src/index.ts:20 | the scan succeeds exactly when every line parses, yielding one place per line in order; otherwise it fails with the error of a line that fails |
| GeoNames.EarliestNearest | src/index.ts:32-36 | the position lies in the window, is no farther than any other position in it, and is strictly nearer than every earlier one |
| GeoNames.EarliestNearestUnique | src/index.ts:32-36 | the earliest nearest position of a window is unique |
| GeoNames.NearestSpec | src/index.ts:23-40 | absent exactly for no places; the only place for one; otherwise the earliest nearest place among positions 1 onward |
| GeoNames.Nearest | src/index.ts:23-40 | the scan returns what `NearestSpec` describes |
| GeoNames.NearestIgnoresFirst | src/index.ts:25-36 | with two or more places, `nearest` answers as the true nearest-place search over all places but the first |
| GeoNames.NearestMissesCloserFirst | src/index.ts:25-33 | with two places, the first strictly nearer, `nearest` returns the second, while the nearest place is the first |
| GeoNames.ClosestSpec | src/index.ts:23-40 | absent exactly for no places; otherwise the earliest place nearest to the target among all places |
| GeoNames.NearestCorrected | src/index.ts:23-40 | the scan that measures the first place returns what `ClosestSpec` describes |
| GeoNames.Query | src/index.ts:23-26 | the query fails exactly when some line fails to parse; otherwise it returns `nearest` over the parsed places |

## Findings

| source | as written | input that shows it | evidently intended | confidence | as-written member | corrected member |
|---|---|---|---|---|---|---|
| src/index.ts:25-29 | the first place becomes `closest` without its distance being computed, and `distance` stays `Infinity`, so the second place always replaces it, whatever its (non-NaN) distance | two places, the first at distance 0 from the target and the second at distance 1: `nearest` returns the second | the running distance starts from the first place, so the result is the nearest of all places | not executed | GeoNames.NearestMissesCloserFirst | GeoNames.NearestCorrected |

`Nearest` and `Query` keep the behaviour as written. `NearestCorrected` is the
scan with the first place measured, and `NearestIgnoresFirst` relates the two.

## Left out

- `GeoNames.generator` reads the file through a stream and `readline`, which includes CRLF handling and async iteration. The model starts from a given sequence of lines, and the constructor's `path` is not modelled.
- The async suspension in `nearest` is not modelled. The scan is a plain sequential loop.
- `Nearest` takes the distance between a place and the target as a function parameter. `Place.distance` converts a place to a coordinate from its parsed latitude and longitude, which may be NaN or unset; that conversion is not modelled. `Geo.Distance` models the distance function itself.
- JavaScript doubles are reals. Rounding, negative zero, and comparisons involving NaN are not modelled. The running distance `Infinity` is `None` ("no bound yet").
- `parseFloat`, `Date.parse`, `Math.PI`, `sin`, `cos` and `acos` are given functions, because they are library behaviour. `acos` is only required to accept arguments in [-1, 1].
- Numbers.ParseIntPrefix: models only decimal input with an optional sign. It does not cover the whitespace skipping, the `0x` radix detection, or the overflow to Infinity that JavaScript's `parseInt` also performs.
- The decorator `F` is replaced by the literal table `Places.Transformations`. The decorator only appends entries in declaration order.
