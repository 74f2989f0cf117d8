/**
 * The three stages of `create_dem.py`: ground-point filtering of one
 * archive, the DTM of one ground tile, the hillshade of one DTM tile. Each
 * decodes its cell from a file name (raising on a malformed one), returns
 * when its output exists, and otherwise runs a fixed sequence of commands
 * and removals through RAM-disk scratch files.
 *
 * `root` is the directory of the script (`os.path.dirname(os.path.realpath(__file__))`).
 */
module Stages {
  import opened Wrappers
  import opened Text
  import opened Paths
  import opened Bounds
  import opened TileNames
  import opened Neighbourhood
  import opened Host

  /** Scratch directory for every intermediate file. */
  const RamDisk: string := "/tmp/ramdisk"

  // ---------------------------------------------------------------- create_ground

  /** Output of `create_ground` for the archive entry `las`: every `.las` in its name becomes `_ground.laz`. */
  function GroundOutput(root: string, las: string): string {
    PathJoin(PathJoin(root, "ground"), ReplaceAll(las, ".las", "_ground.laz"))
  }

  /** Where `extractall` puts each entry of the archive. */
  function Extracted(entries: seq<string>): (paths: seq<string>)
    ensures |paths| == |entries|
    ensures forall i :: 0 <= i < |entries| ==> paths[i] == PathJoin(RamDisk, entries[i])
  {
    if entries == [] then [] else [PathJoin(RamDisk, entries[0])] + Extracted(entries[1..])
  }

  /** The PDAL command that keeps the ground points of `las`, written to `out`. */
  function GroundArgs(las: string, out: string): seq<Arg> {
    Lits(["pdal", "translate", las, "-o", out, "outlier", "smrf", "range",
          "--filters.outlier.method='statistical'", "--filters.outlier.mean_k=8",
          "--filters.outlier.multiplier=3.0", "--filters.smrf.ignore='Classification[7:7]'",
          "--filters.range.limits='Classification[2:2]'", "--writers.las.compression=true",
          "--verbose", "0"])
  }

  /** Extract the archive, filter the first entry, remove the extracted first entry. */
  function GroundPlan(root: string, entries: seq<string>): (plan: seq<Action>)
    requires |entries| > 0
    ensures |plan| == 3 && plan[0] == Extract(Extracted(entries))
    ensures plan[1].Run? && plan[1].inputs == [Extracted(entries)[0]] && plan[1].output == GroundOutput(root, entries[0])
    ensures plan[2] == Remove(Extracted(entries)[0])
  {
    var las := PathJoin(RamDisk, entries[0]);
    var out := GroundOutput(root, entries[0]);
    [Extract(Extracted(entries)), Run(GroundArgs(las, out), [las], out), Remove(las)]
  }

  /**
   * `create_ground` of an archive whose entry names are `entries`: opening a
   * missing archive raises, and so does taking the first name of an empty one.
   */
  function GroundStage(fs: set<string>, root: string, archive: string, entries: seq<string>): (st: Stage)
    ensures st.Fails? <==> archive !in fs || entries == []
    ensures !st.Fails? ==> st.output == GroundOutput(root, entries[0]) && (st.Skip? <==> st.output in fs)
    ensures st.Work? ==> st.plan == GroundPlan(root, entries)
  {
    if archive !in fs || entries == [] then Fails
    else
      var out := GroundOutput(root, entries[0]);
      if out in fs then Skip(out) else Work(out, GroundPlan(root, entries))
  }

  // ---------------------------------------------------------------- create_dtm

  /** The filled DTM of cell `(x, y)`. */
  function DtmOutput(root: string, x: int, y: int): string {
    PathJoin(PathJoin(root, "dtm"), TileName(Dtm, x, y))
  }

  /** A scratch point cloud named after the tile, with `.laz` replaced by `suffix`. */
  function ScratchCloud(tile: string, suffix: string): string {
    PathJoin(RamDisk, ReplaceAll(Basename(tile), ".laz", suffix))
  }

  function MergedPath(tile: string): string {
    ScratchCloud(tile, "_merged.laz")
  }

  function CroppedPath(tile: string): string {
    ScratchCloud(tile, "_cropped.laz")
  }

  /** The unfilled raster, named like the final DTM but in the scratch directory. */
  function RasterPath(x: int, y: int): string {
    PathJoin(RamDisk, TileName(Dtm, x, y))
  }

  function PipelineName(x: int, y: int): string {
    "pipeline_" + IntToString(x) + "_" + IntToString(y) + ".json"
  }

  function PipelinePath(x: int, y: int): string {
    PathJoin(RamDisk, PipelineName(x, y))
  }

  /** `pdal merge`, the gathered tiles, then the merged output. */
  function MergeArgs(tiles: seq<string>, merged: string): seq<Arg> {
    Lits(["pdal", "merge"] + tiles + [merged])
  }

  /** `pdal translate` with the crop filter over the crop window of `b`. */
  function CropArgs(merged: string, cropped: string, b: Box): seq<Arg> {
    Lits(["pdal", "translate", merged, "-o", cropped, "filters.crop"])
    + [Arg.Bounds("--filters.crop.bounds", CropWindow(b))]
    + Lits(["--writers.las.compression=true", "--verbose", "0"])
  }

  /**
   * Merge the gathered tiles, crop with a margin, rasterise through a PDAL
   * pipeline file, fill the gaps into the output; every scratch file is
   * removed right after its last use.
   */
  function DtmPlan(root: string, tile: string, tiles: seq<string>, x: int, y: int): (plan: seq<Action>)
    ensures |plan| == 9
    ensures plan[0].Run? && plan[0].inputs == tiles && plan[0].output == MergedPath(tile)
    ensures plan[7].Run? && plan[7].output == DtmOutput(root, x, y)
  {
    var merged := MergedPath(tile);
    var cropped := CroppedPath(tile);
    var raster := RasterPath(x, y);
    var pipeline := PipelinePath(x, y);
    var out := DtmOutput(root, x, y);
    [ Run(MergeArgs(tiles, merged), tiles, merged),
      Run(CropArgs(merged, cropped, DtmBounds(x, y)), [merged], cropped),
      Remove(merged),
      WritePipeline(pipeline, cropped, raster, DtmBounds(x, y)),
      Run(Lits(["pdal", "pipeline", pipeline]), [pipeline, cropped], raster),
      Remove(cropped),
      Remove(pipeline),
      Run(Lits(["gdal_fillnodata.py", "-md", "50", raster, out]), [raster], out),
      Remove(raster) ]
  }

  /** `create_dtm` of a ground tile: decode `(x, y)`, skip an existing DTM, else run the plan. */
  function DtmStage(fs: set<string>, root: string, tile: string): (st: Stage)
    ensures st.Fails? <==> Decode(Ground, Basename(tile)).None?
    ensures !st.Fails? ==> var c := Decode(Ground, Basename(tile)).value;
      st.output == DtmOutput(root, c.0, c.1) && (st.Skip? <==> st.output in fs)
  {
    match Decode(Ground, Basename(tile))
    case None => Fails
    case Some((x, y)) =>
      var out := DtmOutput(root, x, y);
      if out in fs then Skip(out)
      else Work(out, DtmPlan(root, tile, Neighbours(fs, tile, Ground, x, y), x, y))
  }

  // ---------------------------------------------------------------- create_hillshade

  function HillshadeName(x: int, y: int): string {
    "hillshade_" + IntToString(x) + "_" + IntToString(y) + ".tif"
  }

  function HillshadeOutput(root: string, x: int, y: int): string {
    PathJoin(PathJoin(root, "hillshade"), HillshadeName(x, y))
  }

  function VrtName(x: int, y: int): string {
    IntToString(x) + "_" + IntToString(y) + ".vrt"
  }

  function VrtPath(x: int, y: int): string {
    PathJoin(RamDisk, VrtName(x, y))
  }

  function FullHillshadePath(x: int, y: int): string {
    PathJoin(RamDisk, HillshadeName(x, y))
  }

  /** `gdal_translate` cropping `full` to the `-projwin` window of cell `(x, y)`. */
  function CutArgs(full: string, out: string, x: int, y: int): seq<Arg> {
    var w := ProjWin(HillshadeBounds(x, y));
    Lits(["gdal_translate", "-of", "GTiff", "-co", "COMPRESS=LZW", "-projwin"])
    + [Num(w.ulx), Num(w.uly), Num(w.lrx), Num(w.lry)]
    + Lits([full, out])
  }

  /** Mosaic the gathered DTMs, shade the mosaic, cut out the cell; scratch files removed after use. */
  function HillshadePlan(root: string, tiles: seq<string>, x: int, y: int): seq<Action> {
    var vrt := VrtPath(x, y);
    var full := FullHillshadePath(x, y);
    var out := HillshadeOutput(root, x, y);
    [ Run(Lits(["gdalbuildvrt", vrt] + tiles), tiles, vrt),
      Run(Lits(["gdaldem", "hillshade", vrt, full, "-alg", "Horn", "-s", "1.0", "-z", "0.5",
                "-alt", "42.5", "-multidirectional"]), [vrt], full),
      Remove(vrt),
      Run(CutArgs(full, out, x, y), [full], out),
      Remove(full) ]
  }

  /** `create_hillshade` of a DTM tile. */
  function HillshadeStage(fs: set<string>, root: string, tile: string): (st: Stage)
    ensures st.Fails? <==> Decode(Dtm, Basename(tile)).None?
    ensures !st.Fails? ==> var c := Decode(Dtm, Basename(tile)).value;
      st.output == HillshadeOutput(root, c.0, c.1) && (st.Skip? <==> st.output in fs)
  {
    match Decode(Dtm, Basename(tile))
    case None => Fails
    case Some((x, y)) =>
      var out := HillshadeOutput(root, x, y);
      if out in fs then Skip(out)
      else Work(out, HillshadePlan(root, Neighbours(fs, tile, Dtm, x, y), x, y))
  }

  // ---------------------------------------------------------------- dtm_path_exists and the prefilter

  /** `dtm_path_exists`: decode the ground tile as `create_dtm` does and test for its DTM; `None` when it raises. */
  function DtmPathExists(fs: set<string>, root: string, tile: string): (r: Option<bool>)
    ensures r.None? <==> Decode(Ground, Basename(tile)).None?
    ensures r.Some? ==> var c := Decode(Ground, Basename(tile)).value;
      (r.value <==> DtmOutput(root, c.0, c.1) in fs)
  {
    match Decode(Ground, Basename(tile))
    case None => None
    case Some((x, y)) => Some(DtmOutput(root, x, y) in fs)
  }

  /** The found ground tiles whose DTM does not exist yet. */
  function Pending(fs: set<string>, root: string, found: seq<string>): set<string> {
    set t | t in found && DtmPathExists(fs, root, t) == Some(false)
  }

  /**
   * `[f for f in files if not dtm_path_exists(f)]`: the tiles without a DTM,
   * in their order; the comprehension raises (`None`) when any name does not decode.
   */
  function Prefilter(fs: set<string>, root: string, found: seq<string>): (r: Option<seq<string>>)
    ensures r.None? <==> exists t :: t in found && DtmPathExists(fs, root, t).None?
    ensures r.Some? ==> forall t :: t in r.value <==> t in found && DtmPathExists(fs, root, t) == Some(false)
  {
    if exists t :: t in found && DtmPathExists(fs, root, t).None? then None
    else Some(Filter(found, Pending(fs, root, found)))
  }

  // ---------------------------------------------------------------- the stages, step by step

  method CreateGround(m: Machine, root: string, archive: string, entries: seq<string>, tool: Tool)
    returns (outcome: Outcome)
    modifies m
    ensures |old(m.log)| <= |m.log| && m.log[..|old(m.log)|] == old(m.log)
    ensures Effect(outcome, m.files, m.log[|old(m.log)|..])
      == Conduct(old(m.files), GroundStage(old(m.files), root, archive, entries), tool)
  {
    if archive !in m.files || |entries| == 0 {
      return Raised;
    }
    var lasName := entries[0];
    var lasPath := PathJoin(RamDisk, lasName);
    var out := GroundOutput(root, lasName);
    if out in m.files {
      return Skipped;
    }
    var plan := [Extract(Extracted(entries)), Run(GroundArgs(lasPath, out), [lasPath], out), Remove(lasPath)];
    outcome := m.Enact(Work(out, plan), tool);
  }

  /** The decisions `create_dtm` takes before its first command: decode, skip check, neighbour loop. */
  method DecideDtm(files: set<string>, root: string, tile: string) returns (stage: Stage)
    ensures stage == DtmStage(files, root, tile)
  {
    var cell := Decode(Ground, Basename(tile));
    if cell.None? {
      return Fails;
    }
    var (x, y) := cell.value;
    var out := DtmOutput(root, x, y);
    if out in files {
      return Skip(out);
    }
    var tiles := Gather(files, tile, Ground, x, y);
    stage := Work(out, DtmPlan(root, tile, tiles, x, y));
  }

  method CreateDtm(m: Machine, root: string, tile: string, tool: Tool) returns (outcome: Outcome)
    modifies m
    ensures |old(m.log)| <= |m.log| && m.log[..|old(m.log)|] == old(m.log)
    ensures Effect(outcome, m.files, m.log[|old(m.log)|..])
      == Conduct(old(m.files), DtmStage(old(m.files), root, tile), tool)
  {
    var stage := DecideDtm(m.files, root, tile);
    outcome := m.Enact(stage, tool);
  }

  /** The decisions `create_hillshade` takes before its first command. */
  method DecideHillshade(files: set<string>, root: string, tile: string) returns (stage: Stage)
    ensures stage == HillshadeStage(files, root, tile)
  {
    var cell := Decode(Dtm, Basename(tile));
    if cell.None? {
      return Fails;
    }
    var (x, y) := cell.value;
    var out := HillshadeOutput(root, x, y);
    if out in files {
      return Skip(out);
    }
    var tiles := Gather(files, tile, Dtm, x, y);
    stage := Work(out, HillshadePlan(root, tiles, x, y));
  }

  method CreateHillshade(m: Machine, root: string, tile: string, tool: Tool) returns (outcome: Outcome)
    modifies m
    ensures |old(m.log)| <= |m.log| && m.log[..|old(m.log)|] == old(m.log)
    ensures Effect(outcome, m.files, m.log[|old(m.log)|..])
      == Conduct(old(m.files), HillshadeStage(old(m.files), root, tile), tool)
  {
    var stage := DecideHillshade(m.files, root, tile);
    outcome := m.Enact(stage, tool);
  }
}
