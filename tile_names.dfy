/**
 * File names that carry a grid cell `(x, y)`: the ground clouds
 * `{x}_{y}_ground.laz` and the DTM rasters `dtm_{x}_{y}.tif`, how the
 * scripts build them from integers and how they read the integers back.
 */
module TileNames {
  import opened Wrappers
  import opened Text

  /** The two tile series that are looked up by grid cell. */
  datatype Layer = Ground | Dtm

  /** Rendered integers hold no separator that the decoders split on. */
  lemma IntToStringSeparators(n: int)
    ensures '_' !in IntToString(n) && '.' !in IntToString(n) && '/' !in IntToString(n)
  {
    var s := IntToString(n);
    forall c | c in s
      ensures c != '_' && c != '.' && c != '/'
    {
      var i :| 0 <= i < |s| && s[i] == c;
    }
  }

  /** The file name of cell `(x, y)` in `layer`: `f"{x}_{y}_ground.laz"` or `f"dtm_{x}_{y}.tif"`. */
  function TileName(layer: Layer, x: int, y: int): (name: string)
    ensures '/' !in name
  {
    IntToStringSeparators(x);
    IntToStringSeparators(y);
    match layer
    case Ground => IntToString(x) + "_" + IntToString(y) + "_ground.laz"
    case Dtm => "dtm_" + IntToString(x) + "_" + IntToString(y) + ".tif"
  }

  /** `int()` of two fields; either failing raises `ValueError`. */
  function ParsePair(xs: string, ys: string): Option<(int, int)> {
    match (ParseInt(xs), ParseInt(ys))
    case (Some(x), Some(y)) => Some((x, y))
    case _ => None
  }

  /** Ground-tile decoding: `int()` of the first two `_`-separated fields; fewer fields raise `IndexError`. */
  function DecodeGroundName(base: string): (r: Option<(int, int)>)
    ensures var parts := Split(base, '_');
      r.Some? <==> |parts| >= 2 && ParseInt(parts[0]).Some? && ParseInt(parts[1]).Some?
    ensures r.Some? ==> var parts := Split(base, '_');
      r.value == (ParseInt(parts[0]).value, ParseInt(parts[1]).value)
  {
    var parts := Split(base, '_');
    if |parts| < 2 then None else ParsePair(parts[0], parts[1])
  }

  /** DTM-tile decoding: drop the text from the first `.` on, then `int()` of `_`-fields 1 and 2. */
  function DecodeDtmName(base: string): (r: Option<(int, int)>)
    ensures var parts := Split(Split(base, '.')[0], '_');
      r.Some? <==> |parts| >= 3 && ParseInt(parts[1]).Some? && ParseInt(parts[2]).Some?
    ensures r.Some? ==> var parts := Split(Split(base, '.')[0], '_');
      r.value == (ParseInt(parts[1]).value, ParseInt(parts[2]).value)
  {
    var parts := Split(Split(base, '.')[0], '_');
    if |parts| < 3 then None else ParsePair(parts[1], parts[2])
  }

  function Decode(layer: Layer, base: string): Option<(int, int)> {
    match layer
    case Ground => DecodeGroundName(base)
    case Dtm => DecodeDtmName(base)
  }

  lemma DecodeGroundTileName(x: int, y: int)
    ensures DecodeGroundName(TileName(Ground, x, y)) == Some((x, y))
  {
    var sx, sy := IntToString(x), IntToString(y);
    IntToStringSeparators(x);
    IntToStringSeparators(y);
    assert '_' !in "ground.laz";
    assert TileName(Ground, x, y) == sx + ['_'] + sy + ['_'] + "ground.laz";
    SplitThree(sx, sy, "ground.laz", '_');
    ParseIntToString(x);
    ParseIntToString(y);
  }

  /** The part of a DTM name before its first `.`. */
  function DtmStem(x: int, y: int): string {
    "dtm_" + IntToString(x) + "_" + IntToString(y)
  }

  lemma DtmNameStem(x: int, y: int)
    ensures Split(TileName(Dtm, x, y), '.')[0] == DtmStem(x, y)
  {
    var stem := DtmStem(x, y);
    IntToStringSeparators(x);
    IntToStringSeparators(y);
    assert '.' !in stem;
    assert TileName(Dtm, x, y) == stem + ['.'] + "tif";
    SplitAtSep(stem, "tif", '.');
    SplitNoSep(stem, '.');
  }

  lemma DtmStemFields(x: int, y: int)
    ensures Split(DtmStem(x, y), '_') == ["dtm", IntToString(x), IntToString(y)]
  {
    var sx, sy := IntToString(x), IntToString(y);
    IntToStringSeparators(x);
    IntToStringSeparators(y);
    assert '_' !in "dtm";
    assert DtmStem(x, y) == "dtm" + ['_'] + sx + ['_'] + sy;
    SplitThree("dtm", sx, sy, '_');
  }

  lemma DecodeDtmTileName(x: int, y: int)
    ensures DecodeDtmName(TileName(Dtm, x, y)) == Some((x, y))
  {
    DtmNameStem(x, y);
    DtmStemFields(x, y);
    ParseIntToString(x);
    ParseIntToString(y);
  }

  /** Round trip: decoding a tile name gives back its cell, negative coordinates included. */
  lemma DecodeTileName(layer: Layer, x: int, y: int)
    ensures Decode(layer, TileName(layer, x, y)) == Some((x, y))
  {
    match layer
    case Ground => DecodeGroundTileName(x, y);
    case Dtm => DecodeDtmTileName(x, y);
  }

  /** Different cells have different names in each layer. */
  lemma TileNameInjective(layer: Layer, x1: int, y1: int, x2: int, y2: int)
    requires TileName(layer, x1, y1) == TileName(layer, x2, y2)
    ensures x1 == x2 && y1 == y2
  {
    DecodeTileName(layer, x1, y1);
    DecodeTileName(layer, x2, y2);
  }

  /**
   * The DTM name written for a ground tile decodes, under the hillshade
   * stage's different field positions, to the same cell.
   */
  lemma GroundToDtmName(base: string, x: int, y: int)
    requires DecodeGroundName(base) == Some((x, y))
    ensures DecodeDtmName(TileName(Dtm, x, y)) == Some((x, y))
  {
    DecodeTileName(Dtm, x, y);
  }

  /** A ground-tile name that decodes starts with the text of its `x` field. */
  lemma GroundNameStart(base: string)
    requires DecodeGroundName(base).Some?
    ensures |base| > 0 && NumericStart(base[0])
  {
    var parts := Split(base, '_');
    ParseIntFirst(parts[0]);
    JoinWithFirst(parts, '_');
  }
}
