# swisssurface_dtm, modelled in Dafny

`swisssurface_dtm` turns the swisstopo swissSURFACE3D point-cloud tiles into
a digital terrain model and a hillshade. It consists of three scripts that
drive external programs:

- `downloader.py` reads the tile manifest line by line. It trims each line to
  a URL and fetches the tile with `wget` into `tiles/`, unless a file named
  after the URL's last `/`-segment is already there. An exception on one line
  is printed, and the loop goes on with the next line.
- `create_dem.py` runs three phases, each through a `multiprocessing.Pool`:
  1. `create_ground` extracts each tile archive to a RAM disk and filters the
     ground points with PDAL.
  2. `create_dtm` takes each ground tile, decodes its grid cell `(x, y)` from
     the file name and gathers the existing neighbour tiles. It merges them,
     crops with a 50 m margin, rasterises through a PDAL pipeline file and
     fills the gaps with GDAL.
  3. `create_hillshade` takes each DTM tile, builds a virtual mosaic of it and
     its neighbours, shades it with `gdaldem` and crops it to the cell.

  Every stage returns early when its output already exists. Every stage
  removes its scratch files on the RAM disk as it goes. Before the DTM phase,
  a prefilter drops the ground tiles whose DTM exists.
- `convert_to_jpeg.py` first deletes every `.png` tile of exactly 206 bytes,
  the renderer's blank tile. It prints a progress count every 100000 files.
  It then converts each directory under `tms` into the mirror directory under
  `tmsjpeg` with ImageMagick.

The model treats the file system as the set of paths that exist
(`Host.Machine.files`) together with a log of what was done
(`Host.Machine.log`). A log entry is one of:

- a command run, `Run(argv, inputs, output)`;
- an archive extraction;
- a PDAL pipeline file written;
- an `os.remove`.

What an external program does is an oracle, `Tool = seq<Arg> -> bool`. A
command creates its output exactly when all its inputs exist and the oracle
accepts its command line. `os.remove` of a missing path raises, and after the
skip check nothing else in the stages changes control flow. So each stage
decides one of three things:

- it raises (`Fails`);
- it returns early (`Skip`);
- it runs a fixed plan of actions (`Work`), stopping at the first removal that
  raises.

The stages are methods on the machine. Each method is proved equal to the
pure function `Host.Conduct` of the decided stage. The properties are lemmas
about those functions.

The project consists of these modules:

- `Text` is the Python string operations used: `split`, `rsplit(...)[-1]`,
  `strip`, `replace`, `str(int)` and `int(str)`.
- `Paths` is `os.path.join`, `basename` and `dirname`.
- `Bounds` is the tile bounds, as exact reals.
- `TileNames` is the file names of the tiles and how they are decoded.
- `Neighbourhood` is the neighbour-gathering loop.
- `Host` is the machine and the plan interpreter.
- `Stages` and `StageFacts` are the three stages and what they do to the
  files.
- `Sweeps` is a loop that runs every item one after another, as the
  downloader does.
- `Pool` is `Pool.map`: its chunks, and a worker abandoning a chunk.
- `Drivers` is the pool phases and the script.
- `Recompress` is `convert_to_jpeg.py`.
- `Downloader` is `downloader.py`.

## Model

| member | source | states |
|---|---|---|
| Text.Split | create_dem.py:64 | `str.split` on one character gives at least one piece; no piece holds the separator; joining the pieces with it gives the text back |
| Text.SplitJoin | create_dem.py:64 | round trip: pieces free of the separator are recovered by splitting their join |
| Text.SplitAtSep | create_dem.py:173 | splitting distributes over one occurrence of the separator |
| Text.SplitNoSep | create_dem.py:173 | text without the separator splits into itself alone |
| Text.JoinWithLast | create_dem.py:64 | a join of two or more pieces ends with the separator and the last piece |
| Text.JoinWithFirst | create_dem.py:64 | a join starts with its first piece |
| Text.LastSegment | downloader.py:9 | `rsplit("/")[-1]` holds no `/`, is a suffix of the text, is preceded by a `/` when shorter than the text, and is the whole text when it has no `/` |
| Text.LeadingSpace | downloader.py:8 | counts exactly the whitespace run at the front, whitespace being that of `strip()` or that of `int()` |
| Text.TrailingSpace | downloader.py:8 | counts exactly the whitespace run at the back, for either notion of whitespace |
| Text.StripSpan | downloader.py:8 | what `strip()` keeps, or what `int()` reads: everything outside the span is whitespace of that kind, and the span neither starts nor ends with it |
| Text.StripNoSpace | downloader.py:8 | text without whitespace is left unchanged by `strip()` |
| Text.Strip | downloader.py:8 | `strip()` is no longer than the text, neither starts nor ends with whitespace, and leaves text without whitespace unchanged |
| Text.ReplaceAll | convert_to_jpeg.py:23 | `str.replace` introduces no character that is in neither the text nor the replacement |
| Text.ReplaceAllSkips | convert_to_jpeg.py:23 | a prefix in which no occurrence starts is copied unchanged |
| Text.ReplaceAllNoMatch | convert_to_jpeg.py:23 | text in which the pattern never occurs is left unchanged |
| Text.ReplaceAllAtFront | convert_to_jpeg.py:23 | an occurrence at the front is replaced, and scanning resumes after it |
| Text.ReplaceAllFirst | create_dem.py:85 | a first character that cannot start the pattern is kept |
| Text.DigitChar | create_dem.py:74 | the digit character of a value below ten reads back as that value |
| Text.NatToString | create_dem.py:74 | `str(n)` of a natural number is all digits, with no leading zero |
| Text.IntToString | create_dem.py:74 | `f"{n}"` is canonical: digits after a minus sign exactly when `n` is negative, `"0"` exactly for zero, and no leading zero otherwise |
| Text.DigitsOf | create_dem.py:67-68 | dropping underscores leaves only digits, and a plain run of digits is unchanged |
| Text.DigitsOfKeepsDigits | create_dem.py:67-68 | the digits kept are exactly the characters of the text other than underscores, each as often as it occurs |
| Text.DigitsOfConcat | create_dem.py:67-68 | the digits keep their order: the digits of two pieces, with or without an underscore between them, are the digits of each piece one after the other |
| Text.ValueOfNatToString | create_dem.py:74 | the digits of `str(n)` have value `n` |
| Text.GroupValueOfDigits | create_dem.py:67-68 | a run of digits is a valid `int()` body standing for its value |
| Text.ParseIntToString | create_dem.py:67-68 | round trip: `int(f"{n}") == n` for every integer, negative ones included |
| Text.IntToStringInjective | create_dem.py:74 | distinct integers render to distinct text |
| Text.ParseIntFirst | create_dem.py:67-68 | text that `int()` accepts is non-empty and starts with whitespace `int()` skips, a sign or a digit |
| Text.ParseInt | create_dem.py:67-68 | `int()` accepts only text that is non-empty once its surrounding whitespace (all of `str.isspace()` except the information separators U+001C to U+001F) is skipped, and gives a negative value only after a leading minus sign |
| Text.IntStrip | create_dem.py:67-68 | the text `int()` reads is no longer than its argument, neither starts nor ends with whitespace `int()` skips, and is the whole argument when that holds no whitespace |
| Text.IntStripIsStrip | create_dem.py:67-68 | without information separators, what `int()` reads is exactly what `strip()` keeps |
| Text.ParseSigned | create_dem.py:67-68 | a sign and a digit group: accepted only when non-empty, negative only after a minus |
| Text.ParseIntNoBlank | create_dem.py:67-68 | text with no whitespace at either end is read as it stands |
| Text.ParseIntSkipsBlank | create_dem.py:67-68 | leading whitespace that `int()` skips does not change its result |
| Text.ParseIntRejectsSeparator | create_dem.py:67-68 | an information separator at either end makes `int()` raise |
| Text.SpaceSkipped | create_dem.py:67-68 | `int(" 5")` is 5 |
| Text.SeparatorRejected | create_dem.py:67-68 | `int("\x1c5")` raises, although `"\x1c"` is whitespace to `strip()` |
| Paths.PathJoin | create_dem.py:99 | `os.path.join` ends with its second part; for a relative second part it starts with the first part, and a `/` separates them |
| Paths.Basename | create_dem.py:64 | `basename` holds no `/` and is a suffix of the path |
| Paths.RStripSlashes | create_dem.py:60 | keeps a prefix of the text that does not end in `/`, and every character it drops is a `/` |
| Paths.Dirname | create_dem.py:60 | `dirname` is a prefix of the path that does not end in `/`, unless it consists of slashes only |
| Paths.BasenameOfJoin | create_dem.py:99 | the basename of a directory joined with a relative name is that name |
| Paths.DirnameOfJoin | create_dem.py:60 | the dirname of a directory joined with a relative name is that directory |
| Paths.PathJoinInjective | create_dem.py:99 | one directory joined with two different names gives two different paths |
| Paths.JoinsDiffer | create_dem.py:130-131 | paths whose file names start with different characters differ, whatever their directories |
| Bounds.DtmBounds | create_dem.py:69-72 | DTM bounds start at `1000x`, `1000y`; they span `999.75` on each axis; `min < max`, and both stay below the next cell |
| Bounds.CropWindow | create_dem.py:119 | the crop window is the raster bounds widened by exactly 50 on each of the four sides, so it strictly contains them |
| Bounds.HillshadeBounds | create_dem.py:176-179 | hillshade bounds are exactly the cell: width and height `1000` |
| Bounds.ProjWin | create_dem.py:245-249 | `-projwin` is `minx, maxy, maxx, miny`: upper-left before lower-right, and non-degenerate when the box is |
| Bounds.CropWithinNeighbourhood | create_dem.py:119 | a cell's crop window lies strictly inside the 3 x 3 block of the cell and its neighbours |
| Bounds.DtmBoundsDisjoint | create_dem.py:143 | DTM bounds of two different cells never overlap |
| Bounds.CellsApart | create_dem.py:69-70 | two different grid indices start at least one cell apart |
| Bounds.HillshadeBoundsAdjacent | create_dem.py:176-179 | adjacent hillshades share their common edge; adjacent DTM rasters are one pixel apart |
| TileNames.IntToStringSeparators | create_dem.py:74 | rendered integers hold no `_`, `.` or `/` |
| TileNames.TileName | create_dem.py:98 | a tile file name holds no `/` |
| TileNames.DecodeGroundTileName | create_dem.py:64-68 | decoding `x_y_ground.laz` gives back `(x, y)` |
| TileNames.DtmNameStem | create_dem.py:173 | the text of `dtm_{x}_{y}.tif` before its first `.` is `dtm_{x}_{y}` |
| TileNames.DtmStemFields | create_dem.py:173 | `dtm_{x}_{y}` splits on `_` into `dtm`, `x`, `y` |
| TileNames.DecodeDtmTileName | create_dem.py:173-175 | the hillshade decoder gives back `(x, y)` from `dtm_{x}_{y}.tif`, negative coordinates included |
| TileNames.DecodeTileName | create_dem.py:173-175 | round trip for both layers: decoding a tile name gives back its cell |
| TileNames.TileNameInjective | create_dem.py:98-99 | different cells have different names in each layer |
| TileNames.GroundToDtmName | create_dem.py:64-74 | the DTM name written for a decodable ground tile decodes, at the hillshade's field positions, to the same cell |
| TileNames.GroundNameStart | create_dem.py:64-68 | a decodable ground-tile name starts with whitespace, a sign or a digit |
| TileNames.DecodeGroundName | create_dem.py:64-68 | a ground name decodes exactly when it has two `_`-separated fields that `int()` accepts, and gives their values in order |
| TileNames.DecodeDtmName | create_dem.py:173-175 | a DTM name decodes exactly when the text before its first `.` has three `_`-separated fields whose second and third `int()` accepts, and gives their values in order |
| Neighbourhood.Candidates | create_dem.py:88-99 | one neighbour path per offset, in the listed offset order |
| Neighbourhood.Filter | create_dem.py:100-101 | keeps exactly the elements that exist, and is no longer than its input |
| Neighbourhood.Gather | create_dem.py:87-101 | the appending loop builds exactly `Neighbours`: the tile, then the existing candidates in order |
| Neighbourhood.FilterStep | create_dem.py:100-101 | one more candidate is appended exactly when it exists |
| Neighbourhood.FilterIndices | create_dem.py:100-101 | the kept elements occur in the candidates at strictly increasing positions, so their order is kept |
| Neighbourhood.FilterDistinct | create_dem.py:100-101 | keeping elements of a list without repeats gives a list without repeats |
| Neighbourhood.KeptAfterTile | create_dem.py:87-101 | the tile comes first; every later entry is kept; the later entries are exactly the kept candidates |
| Neighbourhood.KeptAfterTileDistinct | create_dem.py:87-101 | no repeats when the candidates are distinct and exclude the tile |
| Neighbourhood.DecodeCellPath | create_dem.py:98-99 | the name of a cell's tile decodes to that cell |
| Neighbourhood.OffsetsDistinctNonZero | create_dem.py:88-97 | the eight offsets are pairwise distinct, and none is `(0, 0)` |
| Neighbourhood.NeighboursShape | create_dem.py:87-101 | 1 to 9 entries; the tile first; every later entry exists; each offset's path is listed exactly when it exists |
| Neighbourhood.CandidatesDistinct | create_dem.py:88-99 | the eight candidate paths are pairwise distinct |
| Neighbourhood.TileNotCandidate | create_dem.py:87-99 | a tile whose name decodes to its cell is none of its own candidates |
| Neighbourhood.ShiftInjective | create_dem.py:98 | different offsets reach different cells |
| Neighbourhood.ShiftMoves | create_dem.py:98 | a non-zero offset reaches another cell |
| Neighbourhood.OtherCellPath | create_dem.py:98-99 | the path of another cell is never the tile itself |
| Neighbourhood.NeighboursDistinct | create_dem.py:190-204 | the gathered list never repeats a path |
| Neighbourhood.Neighbours | create_dem.py:87-101 | the gathered list holds 1 to 9 paths, starts with the tile, and every later path exists |
| Host.Lits | create_dem.py:34-51 | each literal word becomes one literal argument, in order |
| Host.Step | create_dem.py:127 | an action raises exactly when it is an `os.remove` of a path that does not exist |
| Host.Apply | create_dem.py:103-162 | running a plan does at most all of its actions |
| Host.Conduct | create_dem.py:58-162 | a stage that raises early or skips changes nothing; a stage completes exactly when it works and its whole plan runs; it skips exactly when its output exists |
| Host.ApplyCons | create_dem.py:103-127 | a plan is its first action, then the rest on what that action left |
| Host.ApplyAppend | create_dem.py:103-162 | running two plans in a row is running their concatenation |
| Host.ApplyAt | create_dem.py:103-162 | the plan from action `k` on is action `k`, then the rest |
| Host.ApplyStopsAtMissingRemove | create_dem.py:154-155 | a plan stops early only at an `os.remove` of a path missing at that point |
| Host.ApplyFrame | create_dem.py:103-162 | afterwards a path exists only if it existed or some action may create it; an existing path that no action removes stays |
| Host.ApplyRemovedStaysGone | create_dem.py:154-162 | after a completed plan, a removed path that no later action creates is gone |
| Host.Machine.Execute | create_dem.py:127 | one action: it succeeds exactly when `Step` does, then updates the files and appends to the log; on failure nothing changes |
| Host.Machine.Perform | create_dem.py:103-162 | runs a plan step by step and ends where `Apply` ends, having logged the actions it did |
| Host.Machine.Enact | create_dem.py:58-162 | runs a decided stage and ends where `Conduct` ends; the log only grows |
| Stages.Extracted | create_dem.py:32 | one path per archive entry, in the RAM disk |
| Stages.GroundPlan | create_dem.py:32-53 | extract every entry, filter the first extracted entry into the ground output, then remove that entry |
| Stages.GroundStage | create_dem.py:18-55 | `create_ground` raises exactly on a missing or empty archive; otherwise its output is named after the first entry and it returns early exactly when that output exists |
| Stages.DtmPlan | create_dem.py:103-162 | nine actions: the merge reads every gathered tile into the merged cloud, and the eighth action writes the DTM |
| Stages.DtmStage | create_dem.py:58-103 | `create_dtm` raises exactly on a name that does not decode; otherwise its output is the DTM of the decoded cell and it returns early exactly when that DTM exists |
| Stages.HillshadeStage | create_dem.py:167-204 | `create_hillshade` raises exactly on a name that does not decode; otherwise its output is the hillshade of the decoded cell and it returns early exactly when that exists |
| Stages.DtmPathExists | create_dem.py:265-277 | `dtm_path_exists` raises exactly on a name that does not decode, and otherwise answers whether the DTM of the decoded cell exists |
| Stages.Prefilter | create_dem.py:285 | raises exactly when some found tile does not decode; otherwise it keeps exactly the found tiles without a DTM |
| Stages.CreateGround | create_dem.py:13-55 | the method ends in the state and outcome `Conduct` gives for `GroundStage` |
| Stages.DecideDtm | create_dem.py:58-101 | the decode, skip check and neighbour loop decide exactly `DtmStage` |
| Stages.CreateDtm | create_dem.py:58-162 | the method ends in the state and outcome `Conduct` gives for `DtmStage` |
| Stages.DecideHillshade | create_dem.py:167-204 | the decode, skip check and neighbour loop decide exactly `HillshadeStage` |
| Stages.CreateHillshade | create_dem.py:167-256 | the method ends in the state and outcome `Conduct` gives for `HillshadeStage` |
| StageFacts.DtmShapeScratchGone | create_dem.py:127-162 | a completed DTM-shaped plan leaves none of its four scratch files |
| StageFacts.DtmShapeFrame | create_dem.py:103-162 | a completed DTM-shaped plan removes its scratch files and changes nothing else but its output |
| StageFacts.ScratchSuffixes | create_dem.py:85-111 | the scratch suffixes hold no `/`, so a scratch name stays directly in the RAM disk |
| StageFacts.ScratchCloudName | create_dem.py:84-86 | a scratch cloud of a decodable tile has a file name starting as `int()` text does |
| StageFacts.PipelineNameStart | create_dem.py:131 | the pipeline file name starts with `p` |
| StageFacts.DtmNameStart | create_dem.py:130 | the DTM file name starts with `d` |
| StageFacts.DtmPathsDistinct | create_dem.py:84-131 | the merged, cropped, pipeline, raster and output paths are pairwise distinct |
| StageFacts.DtmNamesApart | create_dem.py:84-131 | file names starting with a digit, sign or space, with `p` and with `d` give distinct paths |
| StageFacts.DtmPlanShape | create_dem.py:103-162 | the DTM plan is the DTM shape over the stage's own paths |
| StageFacts.DtmPlanFrame | create_dem.py:103-162 | the DTM plan of a decodable tile, once completed, leaves only its output besides what existed |
| StageFacts.DtmCompletedCleansUp | create_dem.py:103-162 | a completed `create_dtm` changes nothing but the DTM: every scratch file on the RAM disk is gone |
| StageFacts.WorkFrame | create_dem.py:58-162 | a completed stage has the effect of its whole plan |
| StageFacts.DtmShapeCropFailsEarly | create_dem.py:103-127 | a merge that succeeds and a crop that fails run the first three steps and leave the merged cloud removed |
| StageFacts.DtmShapeCropFailsLate | create_dem.py:147-154 | once the crop made nothing, the pipeline file is written and the removal of the cropped cloud raises |
| StageFacts.DtmShapeCropFails | create_dem.py:124-154 | a merge that succeeds and a crop that fails stop the plan at the cropped cloud's removal: the merged cloud is gone, the pipeline file stays |
| StageFacts.DtmPlanCropFails | create_dem.py:124-154 | the same, for the DTM plan of a decodable tile |
| StageFacts.WorkStopped | create_dem.py:58-162 | a stage whose plan stops early raises, with the files and actions of the part that ran |
| StageFacts.DtmCropFailureLeaksPipeline | create_dem.py:124-155 | when the crop produces nothing, `create_dtm` raises after five actions and leaves the pipeline file on the RAM disk |
| StageFacts.DtmStageWork | create_dem.py:79-103 | a decodable tile without a DTM is worked on with its gathered neighbours |
| StageFacts.NeighboursExist | create_dem.py:87-101 | every gathered path exists when the tile does |
| StageFacts.DtmBeforeWork | create_dem.py:64-81 | `create_dtm` raises on a name it cannot decode and returns on an existing DTM, changing nothing in both cases |
| StageFacts.HillshadePlanShape | create_dem.py:206-256 | the hillshade plan is the hillshade shape over the stage's own paths |
| StageFacts.HillshadeShapeFrame | create_dem.py:206-256 | a completed hillshade-shaped plan removes both scratch files and changes nothing else but its output |
| StageFacts.HillshadeShapeMosaicFails | create_dem.py:207-236 | without a mosaic, the plan raises at the mosaic's removal, having changed nothing |
| StageFacts.HillshadeNameStarts | create_dem.py:184-217 | the mosaic name starts as `int()` text does and the hillshade names start with `h`; none holds a `/` |
| StageFacts.HillshadePathsDistinct | create_dem.py:181-207 | the mosaic is never the hillshade output |
| StageFacts.HillshadeStageWork | create_dem.py:186-204 | a decodable tile without a hillshade is worked on with its gathered neighbours |
| StageFacts.HillshadePlanFrame | create_dem.py:206-256 | the completed hillshade plan leaves only its output besides what existed |
| StageFacts.HillshadeCompletedCleansUp | create_dem.py:206-256 | a completed `create_hillshade` changes nothing but its output, and both scratch files are gone |
| StageFacts.HillshadeMosaicFailureRaises | create_dem.py:207-236 | when `gdalbuildvrt` makes no mosaic, `create_hillshade` raises after two actions having changed nothing |
| StageFacts.HillshadeBeforeWork | create_dem.py:173-188 | `create_hillshade` raises on a name it cannot decode and returns on an existing output, changing nothing |
| StageFacts.GroundShapeRuns | create_dem.py:32-53 | a ground-shaped plan always completes: the extracted entry is there to be read and removed |
| StageFacts.GroundPlanRuns | create_dem.py:32-53 | the `create_ground` plan runs to its end whatever the filter does |
| StageFacts.WorkCompleted | create_dem.py:58-162 | a stage whose plan runs to its end completes with the whole plan done |
| StageFacts.GroundWorkCompletes | create_dem.py:30-53 | `create_ground` with entries and no output always completes: every entry is extracted, the first is removed after the filter whatever the filter did, and the output exists exactly when the filter made it |
| StageFacts.GroundStageWork | create_dem.py:18-32 | an existing archive with entries and no output is worked on |
| StageFacts.ExtractedRemain | create_dem.py:32-53 | extracted entries other than the filtered one stay behind |
| StageFacts.GroundBeforeWork | create_dem.py:18-55 | `create_ground` raises on a missing or empty archive and returns on an existing output, changing nothing |
| StageFacts.MergeArgsShape | create_dem.py:103 | the merge command is `pdal merge`, the gathered tiles in order, then the merged cloud |
| StageFacts.DtmPathExistsAgrees | create_dem.py:265-277 | `dtm_path_exists` raises, answers yes, or answers no exactly when `create_dtm` raises, skips, or works |
| StageFacts.PrefilterKeepsWork | create_dem.py:285 | the prefilter keeps exactly the tiles `create_dtm` would work on and drops exactly those it would skip; it raises exactly when some tile would make `create_dtm` raise |
| StageFacts.DtmOutputFeedsHillshade | create_dem.py:74-76 | the DTM written for a ground tile is a name `create_hillshade` decodes to the same cell |
| Sweeps.SweepUnits | downloader.py:6-14 | a loop whose items each run, whatever the earlier ones did, has one outcome per item |
| Sweeps.SweepAppend | downloader.py:6-14 | running items in two parts is running the first part, then the second on what it left |
| Sweeps.SweepOutcome | downloader.py:6-14 | item `i` ends as it ends on the files the items before it left |
| Sweeps.SweepRaises | downloader.py:7-14 | items run one after another raise exactly when one of them raised on the files the items before it left |
| Sweeps.SweepAllSkip | create_dem.py:294-295 | items that all skip change nothing and raise nothing |
| Sweeps.SweepNoChange | downloader.py:7-14 | items that all leave the files alone and do not complete change nothing, yet every item is visited |
| Pool.ChunkSize | create_dem.py:262 | the chunk length `Pool.map` picks: the number of items over four per worker, rounded up, and zero only for no items |
| Pool.SmallPhaseSingles | create_dem.py:287 | with at most four items per worker, every chunk holds one item |
| Pool.LargePhaseChunks | create_dem.py:262 | with more than four items per worker, chunks hold at least two items |
| Pool.Chunks | create_dem.py:262 | the chunks are the items in order, each non-empty, all but the last of the chunk length |
| Pool.RunChunk | create_dem.py:262 | a worker runs at most the items of its chunk; only the last item run may raise, and it stops early only after one raised |
| Pool.SweepChunks | create_dem.py:287 | the chunks run no more items than they hold, and fewer only when some item raised |
| Pool.PoolMap | create_dem.py:295 | `Pool.map` runs no more items than it is given, and fewer only when some item raised |
| Pool.ChunkRunsPrefix | create_dem.py:262 | a chunk runs a prefix of its items exactly as a plain loop would run them |
| Pool.ChunkWithoutRaise | create_dem.py:262 | a chunk none of whose items raises runs every item |
| Pool.ChunkRaises | create_dem.py:262 | a chunk raises exactly when its items, run one after another, raise |
| Pool.OutcomesApart | create_dem.py:262 | a raise is among two lists of outcomes exactly when it is among one of them |
| Pool.ChunksWithoutRaise | create_dem.py:287 | chunks none of whose items raises run exactly as their items would in a plain loop |
| Pool.ChunksRaise | create_dem.py:287 | the chunks raise exactly when their items, run one after another, raise |
| Pool.ChunkOfOne | create_dem.py:262 | a chunk of one item runs that item |
| Pool.SingleChunks | create_dem.py:262 | chunks of one item each run every item, as a plain loop does |
| Pool.PoolWithoutRaise | create_dem.py:287 | when no item raises, `Pool.map` runs every item, as a plain loop would |
| Pool.PoolRaises | create_dem.py:295 | `Pool.map` raises exactly when its items, run one after another, raise |
| Pool.SmallPoolRunsAll | create_dem.py:287 | with at most four items per worker, `Pool.map` runs every item, even after one raised |
| Pool.PoolAbandonsChunk | create_dem.py:262 | with more than four items per worker, a first item that raises takes the rest of its chunk with it: the second item never runs |
| Drivers.RunUnit | create_dem.py:262 | one pool item runs the stage it names and ends as the runner says, for any runner that conducts each item's stage (`Drivers.Conducts`) |
| Drivers.RunChunkOf | create_dem.py:262 | the worker loop over one chunk ends in the files, log and outcomes of `RunChunk` with that runner |
| Drivers.RunUnits | create_dem.py:286-287 | the pool loop over the chunks ends in the files, log and outcomes of `PoolMap` with that runner; `Drivers.RunScript` passes `Runner`, which conducts each stage (`Drivers.RunnerConducts`) |
| Drivers.GroundUnits | create_dem.py:260-262 | one ground item per archive, in glob order, with that archive's entry names |
| Drivers.DtmUnits | create_dem.py:285-287 | one DTM item per prefiltered tile, in order |
| Drivers.HillshadeUnits | create_dem.py:290-295 | one hillshade item per DTM tile, in order |
| Drivers.Script | create_dem.py:258-295 | the script reports at most three phases finished; a raising phase stops it |
| Drivers.RunScript | create_dem.py:258-295 | the script's run ends in the files, log and phase count of `Script` |
| Drivers.PhaseAllDone | create_dem.py:294-295 | re-running a pool phase whose outputs all exist changes nothing and raises nothing, whatever the chunking |
| Recompress.DeletePlaceholders | convert_to_jpeg.py:8-17 | the deletion loop ends in the files, count, progress marks and removals of `Prune` |
| Recompress.PruneCount | convert_to_jpeg.py:8-10 | the counter ends at the number of files visited: all of them, or up to the one that raised |
| Recompress.Multiples | convert_to_jpeg.py:11-12 | exactly the multiples of 100000 in a range, in increasing order |
| Recompress.MultiplesFront | convert_to_jpeg.py:11-12 | a range of multiples is its first number, when it is a multiple, then the rest |
| Recompress.PruneMarks | convert_to_jpeg.py:8-12 | progress is printed exactly at the multiples of 100000 that the counter reaches, in order |
| Recompress.PruneFrame | convert_to_jpeg.py:14-17 | the pass only removes visited files of size 206; every other path stays |
| Recompress.PruneComplete | convert_to_jpeg.py:9-17 | over distinct existing files, the pass never raises and leaves exactly the original files minus those of size 206 |
| Recompress.PruneRepeatRaises | convert_to_jpeg.py:14-17 | a placeholder listed twice makes the pass raise on its second visit, having removed it once |
| Recompress.Prune | convert_to_jpeg.py:8-17 | the pass only removes files; the counter ends between its start and the number of files found, and at the latter when the pass does not raise |
| Recompress.MirrorDir | convert_to_jpeg.py:23 | the JPEG directory is the PNG directory with every `tms` replaced by `tmsjpeg`; a path without `tms` maps to itself |
| Recompress.MirrorUnderRoot | convert_to_jpeg.py:23 | `root/tms/sub` maps to `root/tmsjpeg/sub` when neither part contains `tms` |
| Recompress.ConvertCommand | convert_to_jpeg.py:26 | the `mogrify` command line has nine literal arguments, the mirrored directory next to last |
| Recompress.ReplaceComponent | convert_to_jpeg.py:23 | replacing a whole path component between separators, when nothing else matches, changes only that component |
| Recompress.ConvertCommandShape | convert_to_jpeg.py:26 | `mogrify` has nine arguments: fixed options, the mirrored directory as `-path`, and the source directory followed by `*.png` |
| Downloader.LineEffect | downloader.py:7-14 | a line is skipped exactly when its file exists; it raises exactly when it is not skipped and `wget` cannot start; only a fetch changes anything, and it adds at most the destination |
| Downloader.FetchLine | downloader.py:8-12 | the loop body ends as `LineEffect` says |
| Downloader.Download | downloader.py:5-14 | the loop ends in the files, log and outcomes of the sweep over all lines |
| Downloader.DestinationShape | downloader.py:9 | the destination's file name is the URL's last segment: no `/`, a suffix of the URL, the whole URL without a `/`, directly inside `tiles` |
| Downloader.Destination | downloader.py:9 | the destination lies inside the tiles directory: that directory is a proper prefix of it |
| Downloader.TrimLine | downloader.py:8 | a line is its URL once the newline is trimmed |
| Downloader.BlankLine | downloader.py:8-10 | a blank line names the tiles directory itself, with a trailing `/` |
| Downloader.DownloadOutcome | downloader.py:6-14 | line `i` is fetched exactly when its file is missing after the earlier lines and `wget` starts; it is skipped exactly when its file exists |
| Downloader.DownloadFrame | downloader.py:9-12 | the loop only adds files, and only at destinations the lines name |
| Downloader.NoWget | downloader.py:7-14 | without `wget` every line fails and nothing changes, yet every line is visited |
| Downloader.LineFetches | downloader.py:10-12 | a missing destination is fetched, and it exists afterwards when `wget` succeeds |
| Downloader.RepeatedLine | downloader.py:10-12 | a line listed twice is fetched once and skipped the second time |

## Left out

- `multiprocessing.Pool` parallelism. The chunking of `Pool.map` is modelled:
  the items are cut into chunks of ceil(n / (4 * workers)) items, a worker
  runs its chunk until an item raises and abandons the rest of that chunk,
  every chunk runs, and the phase raises if any item raised. The chunks are
  modelled as running one after another in list order; how workers
  interleave is not modelled.
- Float semantics of the bounds. The model uses exact reals. In Python,
  `x * 1000.0` raises `OverflowError` for a cell index of about 1.8e308 or
  more, before the skip check. Above about 9e12 the products are no longer
  exact, so `maxx - minx` is no longer 999.75. `StageFacts.DtmPathExistsAgrees`
  and `StageFacts.PrefilterKeepsWork` hold in Python only for cell indices in
  the range where these products are exact.
- The `Pool` over directories in `convert_to_jpeg.py` (lines 32-38) is not
  modelled: its directory glob, the `mkdir` and the JPEG files that
  `mogrify` writes. Only the command line of one directory is modelled.
- What `glob` returns and in which order. It is the parameter `Glob`, and in
  `convert_to_jpeg.py` the list `found`.
- What the archives hold. `ZipFile.namelist` is the parameter `names`.
  `BadZipFile` and the sanitising of entry names are not modelled.
- `os.path.realpath(__file__)`. The script directory is the parameter `root`
  (or `here`).
- `mkdir`, `open()` of the pipeline file, and its JSON content. A written
  pipeline carries only its source, raster and bounds. A RAM disk that is
  missing or full is not modelled.
- What PDAL, GDAL, ImageMagick and `wget` compute, and their exit codes. They
  are the oracle `Tool`.
- How floats are rendered in command lines. Bounds stay exact reals.
- Console output, apart from the progress counts of `convert_to_jpeg.py`.
- `int()` of non-ASCII digits.
- `subprocess.list2cmdline` and shell quoting.
- The `wget -P tiles` target is relative to the working directory, while the
  existence check uses the script directory. The fetch is modelled as
  writing to the checked path.
- Reading the manifest file. Its lines are a parameter.
- `os.path.exists` on directories: a directory is present only when its path
  is in the file set.
- `os.path.getsize`: sizes are the parameter `size`.
- `Drivers.Script`: its contract states only the phase bound. What each phase
  does is stated by the `Sweeps` lemmas, `Drivers.PhaseAllDone` and
  `StageFacts.PrefilterKeepsWork`.
- `Sweeps.SweepUnits`: its contract states only the outcome count. Its
  behaviour is stated by `Sweeps.SweepOutcome`, `Sweeps.SweepRaises`,
  `Sweeps.SweepAppend`, `Sweeps.SweepAllSkip` and `Sweeps.SweepNoChange`; the
  pool phases are tied to it by `Pool.PoolWithoutRaise` and `Pool.PoolRaises`.
