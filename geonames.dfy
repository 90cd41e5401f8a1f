/** The dataset as a sequence of lines, and the nearest-place query over it. */
module GeoNames {
  import opened Wrappers
  import opened Places
  import opened Geo

  /** The places of the lines, in order; the first line that fails to parse
      ends the scan with its error. */
  function Generator(lib: Library, lines: seq<string>): (r: Result<seq<Place>, ParseError>)
    ensures r.Success? <==> forall k :: 0 <= k < |lines| ==> ParsePlace(lib, lines[k]).Success?
    ensures r.Success? ==> |r.value| == |lines|
    ensures r.Success? ==> forall k :: 0 <= k < |lines| ==> ParsePlace(lib, lines[k]) == Success(r.value[k])
    ensures r.Failure? ==> exists k :: 0 <= k < |lines| && ParsePlace(lib, lines[k]) == Failure(r.error)
  {
    if lines == [] then Success([])
    else
      var p :- ParsePlace(lib, lines[0]);
      var rest :- Generator(lib, lines[1..]);
      assert forall k :: 1 <= k < |lines| ==> lines[k] == lines[1..][k - 1];
      Success([p] + rest)
  }

  /** `k` is the earliest position in [lo, hi) whose place is nearest to `to`. */
  ghost predicate IsEarliestNearest(places: seq<Place>, to: LatLng, distance: (Place, LatLng) -> real,
                                    lo: nat, hi: nat, k: nat)
    requires hi <= |places|
  {
    && lo <= k < hi
    && (forall j :: lo <= j < hi ==> distance(places[k], to) <= distance(places[j], to))
    && (forall j :: lo <= j < k ==> distance(places[k], to) < distance(places[j], to))
  }

  /** The earliest position in [lo, hi) with the least distance to `to`. */
  function EarliestNearest(places: seq<Place>, to: LatLng, distance: (Place, LatLng) -> real,
                           lo: nat, hi: nat): (k: nat)
    requires lo < hi <= |places|
    ensures IsEarliestNearest(places, to, distance, lo, hi, k)
    decreases hi
  {
    if hi == lo + 1 then lo
    else
      var k := EarliestNearest(places, to, distance, lo, hi - 1);
      if distance(places[hi - 1], to) < distance(places[k], to) then hi - 1 else k
  }

  /** There is only one earliest nearest position. */
  lemma EarliestNearestUnique(places: seq<Place>, to: LatLng, distance: (Place, LatLng) -> real,
                              lo: nat, hi: nat, k1: nat, k2: nat)
    requires hi <= |places|
    requires IsEarliestNearest(places, to, distance, lo, hi, k1)
    requires IsEarliestNearest(places, to, distance, lo, hi, k2)
    ensures k1 == k2
  {
    // Each is no farther than the other, so they are equally near, and neither
    // can come before the other.
    assert distance(places[k1], to) == distance(places[k2], to);
  }

  /** What `nearest` returns: nothing for no places, the only place for one,
      and otherwise the earliest nearest place among all but the first, whose
      distance is never compared. */
  function NearestSpec(places: seq<Place>, to: LatLng, distance: (Place, LatLng) -> real): (r: Option<Place>)
    ensures r.None? <==> places == []
    ensures |places| == 1 ==> r == Some(places[0])
    ensures |places| >= 2 ==> exists k: nat :: IsEarliestNearest(places, to, distance, 1, |places|, k) && r == Some(places[k])
  {
    if places == [] then None
    else if |places| == 1 then Some(places[0])
    else Some(places[EarliestNearest(places, to, distance, 1, |places|)])
  }

  /** The scan of `nearest`: `bound` is `None` while the running distance is
      still `Infinity`. The first place is taken without measuring it, so the
      second place always replaces it; afterwards a place replaces the current
      one only when strictly nearer. */
  method Nearest(places: seq<Place>, to: LatLng, distance: (Place, LatLng) -> real)
    returns (closest: Option<Place>)
    ensures closest == NearestSpec(places, to, distance)
  {
    closest := None;
    var bound: Option<real> := None;
    for i := 0 to |places|
      invariant i == 0 ==> closest == None && bound == None
      invariant i == 1 ==> closest == Some(places[0]) && bound == None
      invariant i >= 2 ==>
        var k := EarliestNearest(places, to, distance, 1, i);
        closest == Some(places[k]) && bound == Some(distance(places[k], to))
    {
      var place := places[i];
      if closest == None {
        closest := Some(place);
        continue;
      }
      var d := distance(place, to);
      if bound == None || d < bound.value {
        bound := Some(d);
        closest := Some(place);
      }
    }
  }

  /** The nearest place over all places, earliest on ties. */
  function ClosestSpec(places: seq<Place>, to: LatLng, distance: (Place, LatLng) -> real): (r: Option<Place>)
    ensures r.None? <==> places == []
    ensures places != [] ==> exists k: nat :: IsEarliestNearest(places, to, distance, 0, |places|, k) && r == Some(places[k])
  {
    if places == [] then None else Some(places[EarliestNearest(places, to, distance, 0, |places|)])
  }

  /** The scan with the first place measured when it is taken. */
  method NearestCorrected(places: seq<Place>, to: LatLng, distance: (Place, LatLng) -> real)
    returns (closest: Option<Place>)
    ensures closest == ClosestSpec(places, to, distance)
  {
    closest := None;
    var bound: Option<real> := None;
    for i := 0 to |places|
      invariant i == 0 ==> closest == None && bound == None
      invariant i >= 1 ==>
        var k := EarliestNearest(places, to, distance, 0, i);
        closest == Some(places[k]) && bound == Some(distance(places[k], to))
    {
      var place := places[i];
      var d := distance(place, to);
      if closest == None {
        closest := Some(place);
        bound := Some(d);
        continue;
      }
      if d < bound.value {
        bound := Some(d);
        closest := Some(place);
      }
    }
  }

  /** With two or more places, `nearest` answers as the corrected scan does on
      all places but the first. */
  lemma NearestIgnoresFirst(places: seq<Place>, to: LatLng, distance: (Place, LatLng) -> real)
    requires |places| >= 2
    ensures NearestSpec(places, to, distance) == ClosestSpec(places[1..], to, distance)
  {
  }

  /** Two places, the first strictly nearer: `nearest` returns the second,
      while the nearest place is the first. */
  lemma NearestMissesCloserFirst(places: seq<Place>, to: LatLng, distance: (Place, LatLng) -> real)
    requires |places| == 2
    requires distance(places[0], to) < distance(places[1], to)
    ensures NearestSpec(places, to, distance) == Some(places[1])
    ensures ClosestSpec(places, to, distance) == Some(places[0])
  {
  }

  /** The query over a dataset: parse every line, failing on the first line
      that fails, then scan the places. */
  method Query(lib: Library, lines: seq<string>, to: LatLng, distance: (Place, LatLng) -> real)
    returns (r: Result<Option<Place>, ParseError>)
    ensures r.Failure? <==> exists k :: 0 <= k < |lines| && ParsePlace(lib, lines[k]).Failure?
    ensures r.Success? ==> r.value == NearestSpec(Generator(lib, lines).value, to, distance)
  {
    var places :- Generator(lib, lines);
    var closest := Nearest(places, to, distance);
    return Success(closest);
  }
}
