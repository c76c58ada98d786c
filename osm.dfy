/**
 * The records that the map-extract reader hands to the import handlers, one
 * callback per way or node, and the geodesic distance the aggregation uses.
 */
module Osm {

  type Tags = map<string, string>

  /** An OSM way as the reader delivers it: id, tags and the ordered node references. */
  datatype OsmWay = OsmWay(id: int, tags: Tags, nodes: seq<int>)

  /** The node ids a way references, as `set.update` adds them. */
  function NodeSet(w: OsmWay): set<int>
  {
    set n | n in w.nodes
  }

  datatype Coord = Coord(lat: real, lon: real)

  /** An OSM node with its location. */
  datatype OsmNode = OsmNode(id: int, location: Coord)

  /**
   * The great-circle distance in kilometres between two coordinates. The library
   * routine is not modelled: any non-negative function of two coordinates will do.
   */
  type Distance = d: (Coord, Coord) -> real
    | forall a: Coord, b: Coord :: d(a, b) >= 0.0
    witness (a: Coord, b: Coord) => 0.0

  /** Python's `sum`: adds the values from left to right, starting at zero. */
  function Sum(s: seq<real>): real
  {
    if s == [] then 0.0 else Sum(s[..|s| - 1]) + s[|s| - 1]
  }

  /** The sum of non-negative values is non-negative and at least every prefix sum. */
  lemma {:induction false} SumPrefixMonotone(s: seq<real>, i: nat, j: nat)
    requires i <= j <= |s|
    requires forall k :: 0 <= k < |s| ==> s[k] >= 0.0
    ensures 0.0 <= Sum(s[..i]) <= Sum(s[..j])
  {
    if i < j {
      SumPrefixMonotone(s, i, j - 1);
      assert s[..j][..j - 1] == s[..j - 1];
    } else if i > 0 {
      SumPrefixMonotone(s, i - 1, i);
    }
  }

  /** A sum of non-negative values is zero exactly when every value is zero. */
  lemma {:induction false} SumZeroIffAllZero(s: seq<real>)
    requires forall k :: 0 <= k < |s| ==> s[k] >= 0.0
    ensures Sum(s) == 0.0 <==> forall k :: 0 <= k < |s| ==> s[k] == 0.0
  {
    if s != [] {
      var init := s[..|s| - 1];
      SumZeroIffAllZero(init);
      SumPrefixMonotone(s, |s| - 1, |s| - 1);
      assert s[..|s| - 1] == init;
    }
  }
}
