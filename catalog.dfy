/** The building catalog and the shape of the 5x5 land grid. */
module Catalog {

  /** The kinds a tile can hold: `Empty` is unbuilt land, `Castle` the starting structure. */
  datatype Kind = Empty | Castle | Farm | Mine | Barracks | Market

  /** Gold cost of placing a kind on a tile. */
  function Cost(k: Kind): (c: nat)
    ensures c == 0 <==> k == Empty || k == Castle
    ensures c <= 50
  {
    match k
    case Empty => 0
    case Castle => 0
    case Farm => 20
    case Mine => 30
    case Barracks => 50
    case Market => 40
  }

  /** Number of tiles of the 5x5 grid. */
  const MapSize: nat := 25

  /** Index of the centre tile, where the castle stands. */
  const Centre: nat := 12

  /** The grid a new game starts from: the castle at the centre, empty land elsewhere. */
  function InitialMap(): (m: seq<Kind>)
    ensures |m| == MapSize
    ensures m[Centre] == Castle
    ensures forall i :: 0 <= i < |m| && i != Centre ==> m[i] == Empty
  {
    seq(MapSize, i => if i == Centre then Castle else Empty)
  }

  /** The initial grid holds exactly one castle and nothing that produces. */
  lemma InitialMapCensus()
    ensures multiset(InitialMap())[Castle] == 1
    ensures multiset(InitialMap())[Empty] == MapSize - 1
  {
    var m := InitialMap();
    var left, right := m[..Centre], m[Centre + 1..];
    assert m == left + [Castle] + right;
    EmptyRun(left);
    EmptyRun(right);
  }

  /** A run of empty land counts only empty tiles. */
  lemma {:induction false} EmptyRun(s: seq<Kind>)
    requires forall i :: 0 <= i < |s| ==> s[i] == Empty
    ensures multiset(s)[Empty] == |s| && multiset(s)[Castle] == 0
  {
    if s != [] {
      var n := |s| - 1;
      assert s == s[..n] + [s[n]];
      EmptyRun(s[..n]);
    }
  }
}
