/**
 * Neighbour gathering: the list that `create_dtm` merges and
 * `create_hillshade` mosaics holds the tile itself, then every one of its
 * eight neighbours whose file exists, in a fixed offset order.
 */
module Neighbourhood {
  import opened Wrappers
  import opened Paths
  import opened TileNames

  /** The eight compass offsets, in the order the scripts visit them. */
  const Offsets: seq<(int, int)> :=
    [(-1, -1), (-1, 0), (-1, 1), (0, 1), (1, 1), (1, 0), (1, -1), (0, -1)]

  /** The cell at offset `o` from cell `(x, y)`. */
  function Shift(x: int, y: int, o: (int, int)): (int, int) {
    (x + o.0, y + o.1)
  }

  /** Where the tile of `cell` is stored in directory `dir`. */
  function CellPath(dir: string, layer: Layer, cell: (int, int)): string {
    PathJoin(dir, TileName(layer, cell.0, cell.1))
  }

  /** Where the neighbour of cell `(x, y)` at offset `o` would be stored, beside the tile. */
  function NeighbourPath(dir: string, layer: Layer, x: int, y: int, o: (int, int)): string {
    CellPath(dir, layer, Shift(x, y, o))
  }

  /** The neighbour paths of cell `(x, y)`, one per offset, in offset order. */
  function Candidates(dir: string, layer: Layer, x: int, y: int): (c: seq<string>)
    ensures |c| == |Offsets|
    ensures forall k :: 0 <= k < |Offsets| ==> c[k] == NeighbourPath(dir, layer, x, y, Offsets[k])
  {
    seq(|Offsets|, k requires 0 <= k < |Offsets| => NeighbourPath(dir, layer, x, y, Offsets[k]))
  }

  /** The elements of `s` that are in `keep`, in their order in `s`. */
  function Filter<T(!new)>(s: seq<T>, keep: set<T>): (r: seq<T>)
    ensures |r| <= |s|
    ensures forall e :: e in r <==> e in s && e in keep
    decreases |s|
  {
    if s == [] then []
    else
      var last := s[|s| - 1];
      assert s == s[..|s| - 1] + [last];
      Filter(s[..|s| - 1], keep) + (if last in keep then [last] else [])
  }

  predicate Distinct<T(==)>(s: seq<T>) {
    forall i, j :: 0 <= i < j < |s| ==> s[i] != s[j]
  }

  /** The tile, then each of its neighbours that exists, in offset order. */
  function Neighbours(existing: set<string>, tile: string, layer: Layer, x: int, y: int): (r: seq<string>)
    ensures 1 <= |r| <= 9 && r[0] == tile
    ensures forall k :: 1 <= k < |r| ==> r[k] in existing
  {
    [tile] + Filter(Candidates(Dirname(tile), layer, x, y), existing)
  }

  /** The loop of create_dem.py that appends every existing neighbour to the list. */
  method Gather(existing: set<string>, tile: string, layer: Layer, x: int, y: int)
    returns (tiles: seq<string>)
    ensures tiles == Neighbours(existing, tile, layer, x, y)
  {
    var dir := Dirname(tile);
    ghost var c := Candidates(dir, layer, x, y);
    tiles := [tile];
    var i := 0;
    while i < |Offsets|
      invariant 0 <= i <= |Offsets|
      invariant tiles == [tile] + Filter(c[..i], existing)
    {
      var path := NeighbourPath(dir, layer, x, y, Offsets[i]);
      KeepStep(tile, c, i, existing, path);
      if path in existing {
        tiles := tiles + [path];
      }
      i := i + 1;
    }
    assert c[..i] == c;
  }

  /** One more element of `c` is kept exactly when it is in `keep`. */
  lemma FilterStep<T(!new)>(c: seq<T>, i: nat, keep: set<T>)
    requires i < |c|
    ensures Filter(c[..i + 1], keep) == Filter(c[..i], keep) + (if c[i] in keep then [c[i]] else [])
  {
    assert c[..i + 1][..i] == c[..i];
  }

  lemma AppendKept<T>(tile: T, before: seq<T>, p: T, keep: set<T>)
    ensures [tile] + (before + (if p in keep then [p] else []))
      == ([tile] + before) + (if p in keep then [p] else [])
  {
  }

  /** One turn of the gathering loop: the list grows by the next candidate exactly when it is kept. */
  lemma KeepStep<T(!new)>(tile: T, c: seq<T>, i: nat, keep: set<T>, p: T)
    requires i < |c| && p == c[i]
    ensures [tile] + Filter(c[..i + 1], keep) == ([tile] + Filter(c[..i], keep)) + (if p in keep then [p] else [])
  {
    FilterStep(c, i, keep);
    AppendKept(tile, Filter(c[..i], keep), p, keep);
  }

  // ---------------------------------------------------------------- properties

  /** The positions in `s` of the elements `Filter` keeps: strictly increasing, so order is kept. */
  function FilterIndices<T(!new)>(s: seq<T>, keep: set<T>): (idx: seq<nat>)
    ensures |idx| == |Filter(s, keep)|
    ensures forall k :: 0 <= k < |idx| ==> idx[k] < |s| && s[idx[k]] == Filter(s, keep)[k]
    ensures forall k, l :: 0 <= k < l < |idx| ==> idx[k] < idx[l]
    decreases |s|
  {
    if s == [] then []
    else
      var n := |s| - 1;
      var prev := FilterIndices(s[..n], keep);
      if s[n] in keep then prev + [n] else prev
  }

  /** Keeping some elements of a list without repeats gives a list without repeats. */
  lemma {:induction false} FilterDistinct<T(!new)>(s: seq<T>, keep: set<T>)
    requires Distinct(s)
    ensures Distinct(Filter(s, keep))
    decreases |s|
  {
    if s != [] {
      var n := |s| - 1;
      FilterDistinct(s[..n], keep);
      assert s[n] !in s[..n];
    }
  }

  /** A tile followed by the kept elements of `c`: the shape `Neighbours` has for any `c`. */
  lemma KeptAfterTile<T(!new)>(tile: T, c: seq<T>, keep: set<T>)
    ensures var r := [tile] + Filter(c, keep);
      && 1 <= |r| <= |c| + 1
      && r[0] == tile
      && (forall k :: 1 <= k < |r| ==> r[k] in keep)
      && (forall e :: e in r[1..] <==> e in c && e in keep)
  {
    var r := [tile] + Filter(c, keep);
    assert r[1..] == Filter(c, keep);
    forall k | 1 <= k < |r|
      ensures r[k] in keep
    {
      assert r[k] in r[1..];
    }
  }

  /** Without repeats in `c` and with the tile not in `c`, the tile and its kept elements do not repeat. */
  lemma KeptAfterTileDistinct<T(!new)>(tile: T, c: seq<T>, keep: set<T>)
    requires Distinct(c) && tile !in c
    ensures Distinct([tile] + Filter(c, keep))
  {
    FilterDistinct(c, keep);
    var f := Filter(c, keep);
    var r := [tile] + f;
    forall i, j | 0 <= i < j < |r|
      ensures r[i] != r[j]
    {
      if i == 0 {
        assert r[j] == f[j - 1];
        assert f[j - 1] in f;
      } else {
        assert r[i] == f[i - 1] && r[j] == f[j - 1];
      }
    }
  }

  /** The file name of a tile path decodes back to the tile's cell. */
  lemma DecodeCellPath(dir: string, layer: Layer, cell: (int, int))
    ensures Decode(layer, Basename(CellPath(dir, layer, cell))) == Some(cell)
  {
    BasenameOfJoin(dir, TileName(layer, cell.0, cell.1));
    DecodeTileName(layer, cell.0, cell.1);
  }

  lemma OffsetsDistinctNonZero()
    ensures forall i, j :: 0 <= i < j < |Offsets| ==> Offsets[i] != Offsets[j]
    ensures forall i :: 0 <= i < |Offsets| ==> Offsets[i] != (0, 0)
  {
  }

  /**
   * The list starts with the tile; every later entry exists, and the path
   * of each of the eight offsets is listed after the tile exactly when it exists.
   */
  lemma NeighboursShape(existing: set<string>, tile: string, layer: Layer, x: int, y: int)
    ensures var r := Neighbours(existing, tile, layer, x, y);
      && 1 <= |r| <= 9
      && r[0] == tile
      && (forall k :: 1 <= k < |r| ==> r[k] in existing)
      && (forall k :: 0 <= k < |Offsets| ==>
            (NeighbourPath(Dirname(tile), layer, x, y, Offsets[k]) in r[1..]
             <==> NeighbourPath(Dirname(tile), layer, x, y, Offsets[k]) in existing))
  {
    var c := Candidates(Dirname(tile), layer, x, y);
    KeptAfterTile(tile, c, existing);
    forall k | 0 <= k < |Offsets|
      ensures NeighbourPath(Dirname(tile), layer, x, y, Offsets[k]) in c
    {
      assert c[k] == NeighbourPath(Dirname(tile), layer, x, y, Offsets[k]);
    }
  }

  /** The eight neighbour paths are pairwise different. */
  lemma CandidatesDistinct(dir: string, layer: Layer, x: int, y: int)
    ensures Distinct(Candidates(dir, layer, x, y))
  {
    var c := Candidates(dir, layer, x, y);
    OffsetsDistinctNonZero();
    forall i, j | 0 <= i < j < |c|
      ensures c[i] != c[j]
    {
      var ci, cj := Shift(x, y, Offsets[i]), Shift(x, y, Offsets[j]);
      assert c[i] == CellPath(dir, layer, ci) && c[j] == CellPath(dir, layer, cj);
      assert Offsets[i] != Offsets[j];
      ShiftInjective(x, y, Offsets[i], Offsets[j]);
      DecodeCellPath(dir, layer, ci);
      DecodeCellPath(dir, layer, cj);
    }
  }

  /** A tile whose name decodes to `(x, y)` is none of the neighbour paths of `(x, y)`, in any directory. */
  lemma TileNotCandidate(tile: string, dir: string, layer: Layer, x: int, y: int)
    requires Decode(layer, Basename(tile)) == Some((x, y))
    ensures tile !in Candidates(dir, layer, x, y)
  {
    var c := Candidates(dir, layer, x, y);
    OffsetsDistinctNonZero();
    forall k | 0 <= k < |c|
      ensures c[k] != tile
    {
      var cell := Shift(x, y, Offsets[k]);
      assert c[k] == CellPath(dir, layer, cell);
      assert Offsets[k] != (0, 0);
      ShiftMoves(x, y, Offsets[k]);
      OtherCellPath(tile, dir, layer, cell, (x, y));
    }
  }

  lemma ShiftInjective(x: int, y: int, o1: (int, int), o2: (int, int))
    requires o1 != o2
    ensures Shift(x, y, o1) != Shift(x, y, o2)
  {
  }

  lemma ShiftMoves(x: int, y: int, o: (int, int))
    requires o != (0, 0)
    ensures Shift(x, y, o) != (x, y)
  {
  }

  /** The path of a cell is not a tile whose name decodes to another cell. */
  lemma OtherCellPath(tile: string, dir: string, layer: Layer, cell: (int, int), other: (int, int))
    requires Decode(layer, Basename(tile)) == Some(other) && cell != other
    ensures CellPath(dir, layer, cell) != tile
  {
    DecodeCellPath(dir, layer, cell);
  }

  /**
   * When the tile's own name decodes to `(x, y)`, the list never repeats a
   * path: the offsets are distinct and none of them is `(0, 0)`.
   */
  lemma NeighboursDistinct(existing: set<string>, tile: string, layer: Layer, x: int, y: int)
    requires Decode(layer, Basename(tile)) == Some((x, y))
    ensures Distinct(Neighbours(existing, tile, layer, x, y))
  {
    CandidatesDistinct(Dirname(tile), layer, x, y);
    TileNotCandidate(tile, Dirname(tile), layer, x, y);
    KeptAfterTileDistinct(tile, Candidates(Dirname(tile), layer, x, y), existing);
  }
}
