/** The five boroughs and their centroids, declared identically in the four
    core files that declare them (the two endpoint files, the grid builder
    and the enrichment script), and the "nearest labelled point" search that both the grid builder
    and the intersection enrichment use. */
module Boroughs {

  /** A (latitude, longitude) pair in degrees. */
  type Coord = (real, real)

  datatype Centroid = Centroid(name: string, center: Coord)

  /** The centroid table in declaration order (Python dictionaries keep it). */
  const BOROUGHS: seq<Centroid> := [
    Centroid("Manhattan", (40.776676, -73.971321)),
    Centroid("Brooklyn", (40.650002, -73.949997)),
    Centroid("Queens", (40.742054, -73.769417)),
    Centroid("Staten Island", (40.579021, -74.151535)),
    Centroid("Bronx", (40.837048, -73.865433))
  ]

  /** The borough names in declaration order. */
  function Names(): (names: seq<string>)
    ensures |names| == |BOROUGHS|
    ensures forall i :: 0 <= i < |BOROUGHS| ==> names[i] == BOROUGHS[i].name
  {
    seq(|BOROUGHS|, i requires 0 <= i < |BOROUGHS| => BOROUGHS[i].name)
  }

  /** No two entries of a name list coincide, as with the keys of a dictionary. */
  predicate Distinct(names: seq<string>)
  {
    forall i, j :: 0 <= i < j < |names| ==> names[i] != names[j]
  }

  lemma NamesDistinct()
    ensures |Names()| == 5
    ensures Distinct(Names())
    ensures Names() == ["Manhattan", "Brooklyn", "Queens", "Staten Island", "Bronx"]
  {
    assert Names() == ["Manhattan", "Brooklyn", "Queens", "Staten Island", "Bronx"];
  }

  /** Python's `min(candidates, key=key)` as an index: it scans left to right and
      replaces the current best only by a strictly smaller key, so the result is
      the FIRST candidate whose key is minimal. */
  function ArgMin<T>(candidates: seq<T>, key: T -> real): (k: nat)
    requires |candidates| > 0
    ensures k < |candidates|
    ensures forall j :: 0 <= j < |candidates| ==> key(candidates[k]) <= key(candidates[j])
    ensures forall j :: 0 <= j < k ==> key(candidates[k]) < key(candidates[j])
  {
    if |candidates| == 1 then 0
    else
      var best := ArgMin(candidates[..|candidates| - 1], key);
      var last := |candidates| - 1;
      if key(candidates[last]) < key(candidates[best]) then last else best
  }

  /** Two indices that both satisfy ArgMin's contract coincide: the contract
      determines the result, so any first-minimum search agrees with ArgMin. */
  lemma ArgMinUnique<T>(candidates: seq<T>, key: T -> real, k: nat)
    requires k < |candidates|
    requires forall j :: 0 <= j < |candidates| ==> key(candidates[k]) <= key(candidates[j])
    requires forall j :: 0 <= j < k ==> key(candidates[k]) < key(candidates[j])
    ensures k == ArgMin(candidates, key)
  {
  }

  /** The name of the borough whose centroid is nearest to `p` under `dist`. */
  function NearestBorough(p: Coord, dist: (Coord, Coord) -> real): (name: string)
    ensures name in Names()
    ensures exists k :: (0 <= k < |BOROUGHS| && BOROUGHS[k].name == name &&
      (forall j :: 0 <= j < |BOROUGHS| ==> dist(p, BOROUGHS[k].center) <= dist(p, BOROUGHS[j].center)) &&
      (forall j :: 0 <= j < k ==> dist(p, BOROUGHS[k].center) < dist(p, BOROUGHS[j].center)))
  {
    var k := ArgMin(BOROUGHS, (c: Centroid) => dist(p, c.center));
    assert Names()[k] == BOROUGHS[k].name;
    BOROUGHS[k].name
  }
}
