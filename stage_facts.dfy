/**
 * What the three stages of `create_dem.py` do to the file system: a stage
 * whose output exists changes nothing; a stage that runs to its end leaves
 * nothing behind but its output; a stage interrupted by a missing scratch
 * file leaves the scratch files made before it. The plan-level facts are
 * proved once over plans with arbitrary paths, then instantiated with the
 * names the scripts build.
 */
module StageFacts {
  import opened Wrappers
  import opened Text
  import opened Paths
  import opened Bounds
  import opened TileNames
  import opened Neighbourhood
  import opened Host
  import opened Stages

  // ---------------------------------------------------------------- plan shapes

  /** The shape of `DtmPlan`, over arbitrary paths and command lines. */
  function DtmShape(tiles: seq<string>, merged: string, cropped: string, pipeline: string, raster: string,
                    out: string, merge: seq<Arg>, crop: seq<Arg>, rasterise: seq<Arg>, fill: seq<Arg>,
                    b: Box): seq<Action>
  {
    [ Run(merge, tiles, merged),
      Run(crop, [merged], cropped),
      Remove(merged),
      WritePipeline(pipeline, cropped, raster, b),
      Run(rasterise, [pipeline, cropped], raster),
      Remove(cropped),
      Remove(pipeline),
      Run(fill, [raster], out),
      Remove(raster) ]
  }

  /** A DTM-shaped plan that runs to its end leaves none of its four scratch files. */
  lemma DtmShapeScratchGone(fs: set<string>, tool: Tool, tiles: seq<string>, merged: string, cropped: string,
                            pipeline: string, raster: string, out: string, merge: seq<Arg>, crop: seq<Arg>,
                            rasterise: seq<Arg>, fill: seq<Arg>, b: Box)
    requires merged != pipeline && merged != raster && merged != out
    requires cropped != out && pipeline != out
    requires var plan := DtmShape(tiles, merged, cropped, pipeline, raster, out, merge, crop, rasterise, fill, b);
      Apply(fs, plan, tool).done == |plan|
    ensures var t := Apply(fs, DtmShape(tiles, merged, cropped, pipeline, raster, out, merge, crop, rasterise, fill, b), tool);
      merged !in t.files && cropped !in t.files && pipeline !in t.files && raster !in t.files
  {
    var plan := DtmShape(tiles, merged, cropped, pipeline, raster, out, merge, crop, rasterise, fill, b);
    ApplyRemovedStaysGone(fs, plan, tool, 2, merged);
    ApplyRemovedStaysGone(fs, plan, tool, 5, cropped);
    ApplyRemovedStaysGone(fs, plan, tool, 6, pipeline);
    ApplyRemovedStaysGone(fs, plan, tool, 8, raster);
  }

  /** The only files a DTM-shaped plan may create are its four scratch files and its output. */
  lemma DtmShapeCreates(tiles: seq<string>, merged: string, cropped: string, pipeline: string, raster: string, out: string,
                        merge: seq<Arg>, crop: seq<Arg>, rasterise: seq<Arg>, fill: seq<Arg>, b: Box, p: string)
    ensures CreatedBy(DtmShape(tiles, merged, cropped, pipeline, raster, out, merge, crop, rasterise, fill, b), p)
      ==> p in {merged, cropped, pipeline, raster, out}
  {
    var plan := DtmShape(tiles, merged, cropped, pipeline, raster, out, merge, crop, rasterise, fill, b);
    forall i | 0 <= i < |plan|
      ensures Creates(plan[i]) <= {merged, cropped, pipeline, raster, out}
    {
    }
  }

  /**
   * A DTM-shaped plan that runs to its end has removed its four scratch
   * files and changed nothing else but its output.
   */
  lemma DtmShapeFrame(fs: set<string>, tool: Tool, tiles: seq<string>, merged: string, cropped: string,
                      pipeline: string, raster: string, out: string, merge: seq<Arg>, crop: seq<Arg>,
                      rasterise: seq<Arg>, fill: seq<Arg>, b: Box)
    requires merged != pipeline && merged != raster && merged != out
    requires cropped != out && pipeline != out
    ensures var plan := DtmShape(tiles, merged, cropped, pipeline, raster, out, merge, crop, rasterise, fill, b);
      var t := Apply(fs, plan, tool);
      t.done == |plan| ==> t.files - {out} == fs - {merged, cropped, pipeline, raster, out}
  {
    var plan := DtmShape(tiles, merged, cropped, pipeline, raster, out, merge, crop, rasterise, fill, b);
    var t := Apply(fs, plan, tool);
    if t.done == |plan| {
      DtmShapeScratchGone(fs, tool, tiles, merged, cropped, pipeline, raster, out, merge, crop, rasterise, fill, b);
      forall p | p in t.files - {out}
        ensures p in fs
      {
        ApplyFrame(fs, plan, tool, p);
        DtmShapeCreates(tiles, merged, cropped, pipeline, raster, out, merge, crop, rasterise, fill, b, p);
      }
      forall p | p in fs - {merged, cropped, pipeline, raster, out}
        ensures p in t.files
      {
        ApplyFrame(fs, plan, tool, p);
      }
    }
  }

  // ---------------------------------------------------------------- scratch names

  lemma ScratchSuffixes()
    ensures '/' !in "_merged.laz" && '/' !in "_cropped.laz"
  {
  }

  /** A scratch cloud of a decodable ground tile is named like the tile: a file name starting as `int()` text does. */
  lemma ScratchCloudName(tile: string, suffix: string)
    requires Decode(Ground, Basename(tile)).Some?
    requires '/' !in suffix
    ensures var name := ReplaceAll(Basename(tile), ".laz", suffix);
      ScratchCloud(tile, suffix) == PathJoin(RamDisk, name)
      && '/' !in name && name != [] && NumericStart(name[0])
  {
    var b := Basename(tile);
    GroundNameStart(b);
    ReplaceAllFirst(b, ".laz", suffix);
  }

  lemma PipelineNameStart(x: int, y: int)
    ensures '/' !in PipelineName(x, y) && PipelineName(x, y) != [] && PipelineName(x, y)[0] == 'p'
  {
    IntToStringSeparators(x);
    IntToStringSeparators(y);
  }

  lemma DtmNameStart(x: int, y: int)
    ensures '/' !in TileName(Dtm, x, y) && TileName(Dtm, x, y) != [] && TileName(Dtm, x, y)[0] == 'd'
  {
  }

  /**
   * The scratch and output paths of `create_dtm` that must differ for the
   * scratch files to be cleaned up: file names starting with a digit, a sign
   * or a space, with `p` and with `d` never coincide.
   */
  lemma DtmPathsDistinct(root: string, tile: string, x: int, y: int)
    requires Decode(Ground, Basename(tile)).Some?
    ensures var merged, cropped, pipeline, raster, out :=
        MergedPath(tile), CroppedPath(tile), PipelinePath(x, y), RasterPath(x, y), DtmOutput(root, x, y);
      merged != pipeline && merged != raster && merged != out
      && cropped != pipeline && cropped != out && pipeline != out
  {
    ScratchSuffixes();
    ScratchCloudName(tile, "_merged.laz");
    ScratchCloudName(tile, "_cropped.laz");
    PipelineNameStart(x, y);
    DtmNameStart(x, y);
    DtmNamesApart(RamDisk, PathJoin(root, "dtm"), ReplaceAll(Basename(tile), ".laz", "_merged.laz"),
      ReplaceAll(Basename(tile), ".laz", "_cropped.laz"), PipelineName(x, y), TileName(Dtm, x, y));
  }

  /** A character `int()` may start with is neither `p` nor `d`. */
  lemma NumericNotLetter(c: char)
    requires NumericStart(c)
    ensures c != 'p' && c != 'd'
  {
  }

  /**
   * The comparisons behind `DtmPathsDistinct`, over file names known only by
   * their first character, in the RAM disk `ram` and the DTM directory `dtm`.
   */
  lemma DtmNamesApart(ram: string, dtm: string, m: string, c: string, pn: string, dn: string)
    requires '/' !in m && '/' !in c && '/' !in pn && '/' !in dn
    requires m != [] && c != [] && pn != [] && dn != []
    requires NumericStart(m[0]) && NumericStart(c[0]) && pn[0] == 'p' && dn[0] == 'd'
    ensures PathJoin(ram, m) != PathJoin(ram, pn)
    ensures PathJoin(ram, m) != PathJoin(ram, dn)
    ensures PathJoin(ram, m) != PathJoin(dtm, dn)
    ensures PathJoin(ram, c) != PathJoin(ram, pn)
    ensures PathJoin(ram, c) != PathJoin(dtm, dn)
    ensures PathJoin(ram, pn) != PathJoin(dtm, dn)
  {
    NumericNotLetter(m[0]);
    NumericNotLetter(c[0]);
    JoinsDiffer(ram, m, ram, pn);
    JoinsDiffer(ram, m, ram, dn);
    JoinsDiffer(ram, m, dtm, dn);
    JoinsDiffer(ram, c, ram, pn);
    JoinsDiffer(ram, c, dtm, dn);
    JoinsDiffer(ram, pn, dtm, dn);
  }

  // ---------------------------------------------------------------- create_dtm

  /** The four scratch files of `create_dtm` on the RAM disk. */
  function DtmScratch(tile: string, x: int, y: int): set<string> {
    {MergedPath(tile), CroppedPath(tile), PipelinePath(x, y), RasterPath(x, y)}
  }

  lemma DtmPlanShape(root: string, tile: string, tiles: seq<string>, x: int, y: int)
    ensures DtmPlan(root, tile, tiles, x, y) == DtmShape(tiles, MergedPath(tile), CroppedPath(tile),
      PipelinePath(x, y), RasterPath(x, y), DtmOutput(root, x, y),
      MergeArgs(tiles, MergedPath(tile)),
      CropArgs(MergedPath(tile), CroppedPath(tile), DtmBounds(x, y)),
      Lits(["pdal", "pipeline", PipelinePath(x, y)]),
      Lits(["gdal_fillnodata.py", "-md", "50", RasterPath(x, y), DtmOutput(root, x, y)]),
      DtmBounds(x, y))
  {
  }

  /** The DTM plan of a decodable tile, with any gathered list, cleans up after itself when it runs to its end. */
  lemma DtmPlanFrame(fs: set<string>, root: string, tile: string, tiles: seq<string>, x: int, y: int, tool: Tool)
    requires Decode(Ground, Basename(tile)).Some?
    ensures var t := Apply(fs, DtmPlan(root, tile, tiles, x, y), tool);
      var out := DtmOutput(root, x, y);
      t.done == 9 ==> t.files - {out} == fs - DtmScratch(tile, x, y) - {out}
  {
    var out := DtmOutput(root, x, y);
    DtmPlanShape(root, tile, tiles, x, y);
    DtmPathsDistinct(root, tile, x, y);
    DtmShapeFrame(fs, tool, tiles, MergedPath(tile), CroppedPath(tile), PipelinePath(x, y), RasterPath(x, y), out,
      MergeArgs(tiles, MergedPath(tile)), CropArgs(MergedPath(tile), CroppedPath(tile), DtmBounds(x, y)),
      Lits(["pdal", "pipeline", PipelinePath(x, y)]),
      Lits(["gdal_fillnodata.py", "-md", "50", RasterPath(x, y), out]), DtmBounds(x, y));
  }

  /**
   * `create_dtm` that runs to its end leaves the file system as it found it
   * except for the DTM: every scratch file on the RAM disk is gone.
   */
  lemma DtmCompletedCleansUp(fs: set<string>, root: string, tile: string, x: int, y: int, tool: Tool)
    requires Decode(Ground, Basename(tile)) == Some((x, y))
    ensures var e := Conduct(fs, DtmStage(fs, root, tile), tool);
      var out := DtmOutput(root, x, y);
      e.outcome == Completed ==> e.files - {out} == fs - DtmScratch(tile, x, y) - {out}
  {
    var out := DtmOutput(root, x, y);
    if out !in fs {
      var plan := DtmPlan(root, tile, Neighbours(fs, tile, Ground, x, y), x, y);
      DtmStageWork(fs, root, tile, x, y);
      DtmPlanFrame(fs, root, tile, Neighbours(fs, tile, Ground, x, y), x, y, tool);
      WorkFrame(fs, out, plan, tool, DtmScratch(tile, x, y));
    }
  }

  /** A completed stage has the effect its plan has when it runs to its end. */
  lemma WorkFrame(fs: set<string>, out: string, plan: seq<Action>, tool: Tool, scratch: set<string>)
    requires var t := Apply(fs, plan, tool);
      t.done == |plan| ==> t.files - {out} == fs - scratch - {out}
    ensures var e := Conduct(fs, Work(out, plan), tool);
      e.outcome == Completed ==> e.files - {out} == fs - scratch - {out}
  {
  }

  /** The last steps of a DTM-shaped plan once the crop has made nothing: the pipeline is written, then the removal of the cropped cloud raises. */
  lemma DtmShapeCropFailsLate(fs: set<string>, tool: Tool, tiles: seq<string>, merged: string, cropped: string,
                          pipeline: string, raster: string, out: string, merge: seq<Arg>, crop: seq<Arg>,
                          rasterise: seq<Arg>, fill: seq<Arg>, b: Box)
    requires cropped !in fs && cropped != pipeline
    ensures Apply(fs, DtmShape(tiles, merged, cropped, pipeline, raster, out, merge, crop, rasterise, fill, b)[3..], tool) == Trace(fs + {pipeline}, 2)
  {
    var plan := DtmShape(tiles, merged, cropped, pipeline, raster, out, merge, crop, rasterise, fill, b);
    var f4 := fs + {pipeline};
    assert Step(f4, plan[5], tool) == None;
    ApplyAt(f4, plan, 5, tool);
    assert !AllExist(f4, [pipeline, cropped]) by {
      assert [pipeline, cropped][1] == cropped;
    }
    assert Step(f4, plan[4], tool) == Some(f4);
    ApplyAt(f4, plan, 4, tool);
    assert Step(fs, plan[3], tool) == Some(f4);
    ApplyAt(fs, plan, 3, tool);
  }

  /** The first steps of a DTM-shaped plan whose merge succeeds and whose crop fails: merge, crop, removal of the merged cloud. */
  lemma DtmShapeCropFailsEarly(fs: set<string>, tool: Tool, tiles: seq<string>, merged: string, cropped: string,
                          pipeline: string, raster: string, out: string, merge: seq<Arg>, crop: seq<Arg>,
                          rasterise: seq<Arg>, fill: seq<Arg>, b: Box)
    requires AllExist(fs, tiles) && tool(merge) && !tool(crop)
    ensures var plan := DtmShape(tiles, merged, cropped, pipeline, raster, out, merge, crop, rasterise, fill, b);
      var rest := Apply(fs + {merged} - {merged}, plan[3..], tool);
      Apply(fs, plan, tool) == Trace(rest.files, rest.done + 3)
  {
    var plan := DtmShape(tiles, merged, cropped, pipeline, raster, out, merge, crop, rasterise, fill, b);
    var f1 := fs + {merged};
    var f3 := f1 - {merged};
    assert Step(f1, plan[2], tool) == Some(f3);
    ApplyAt(f1, plan, 2, tool);
    assert Step(f1, plan[1], tool) == Some(f1);
    ApplyAt(f1, plan, 1, tool);
    assert Step(fs, plan[0], tool) == Some(f1);
    ApplyAt(fs, plan, 0, tool);
    assert plan[0..] == plan;
  }

  /**
   * A DTM-shaped plan whose merge succeeds and whose crop fails stops at the
   * removal of the missing cropped cloud: the merged cloud is gone, the
   * pipeline file stays behind, no raster is made.
   */
  lemma DtmShapeCropFails(fs: set<string>, tool: Tool, tiles: seq<string>, merged: string, cropped: string,
                          pipeline: string, raster: string, out: string, merge: seq<Arg>, crop: seq<Arg>,
                          rasterise: seq<Arg>, fill: seq<Arg>, b: Box)
    requires AllExist(fs, tiles) && tool(merge) && !tool(crop)
    requires cropped !in fs && cropped != pipeline
    ensures var t := Apply(fs, DtmShape(tiles, merged, cropped, pipeline, raster, out, merge, crop, rasterise, fill, b), tool);
      t.done == 5 && t.files == fs - {merged} + {pipeline}
  {
    var f3 := fs + {merged} - {merged};
    assert cropped !in f3;
    DtmShapeCropFailsEarly(fs, tool, tiles, merged, cropped, pipeline, raster, out, merge, crop, rasterise, fill, b);
    DtmShapeCropFailsLate(f3, tool, tiles, merged, cropped, pipeline, raster, out, merge, crop, rasterise, fill, b);
    assert f3 + {pipeline} == fs - {merged} + {pipeline};
  }

  /** The DTM plan of a decodable tile whose merge succeeds and whose crop fails. */
  lemma DtmPlanCropFails(fs: set<string>, root: string, tile: string, tiles: seq<string>, x: int, y: int, tool: Tool)
    requires Decode(Ground, Basename(tile)).Some?
    requires AllExist(fs, tiles) && tool(MergeArgs(tiles, MergedPath(tile)))
    requires !tool(CropArgs(MergedPath(tile), CroppedPath(tile), DtmBounds(x, y)))
    requires CroppedPath(tile) !in fs
    ensures Apply(fs, DtmPlan(root, tile, tiles, x, y), tool) == Trace(fs - {MergedPath(tile)} + {PipelinePath(x, y)}, 5)
  {
    DtmPathsDistinct(root, tile, x, y);
    DtmPlanShape(root, tile, tiles, x, y);
    DtmShapeCropFails(fs, tool, tiles, MergedPath(tile), CroppedPath(tile), PipelinePath(x, y), RasterPath(x, y),
      DtmOutput(root, x, y), MergeArgs(tiles, MergedPath(tile)), CropArgs(MergedPath(tile), CroppedPath(tile), DtmBounds(x, y)),
      Lits(["pdal", "pipeline", PipelinePath(x, y)]),
      Lits(["gdal_fillnodata.py", "-md", "50", RasterPath(x, y), DtmOutput(root, x, y)]), DtmBounds(x, y));
  }

  /** A stage whose plan stops early raises, with the files and actions of the part that ran. */
  lemma WorkStopped(fs: set<string>, out: string, plan: seq<Action>, tool: Tool, files: set<string>, done: nat)
    requires done < |plan| && Apply(fs, plan, tool) == Trace(files, done)
    ensures Conduct(fs, Work(out, plan), tool) == Effect(Raised, files, plan[..done])
  {
  }

  /**
   * When the merge of a DTM tile succeeds but the crop produces nothing,
   * `create_dtm` raises at the removal of the cropped cloud and leaves the
   * pipeline file on the RAM disk.
   */
  lemma DtmCropFailureLeaksPipeline(fs: set<string>, root: string, tile: string, x: int, y: int, tool: Tool)
    requires Decode(Ground, Basename(tile)) == Some((x, y))
    requires DtmOutput(root, x, y) !in fs && tile in fs
    requires tool(MergeArgs(Neighbours(fs, tile, Ground, x, y), MergedPath(tile)))
    requires !tool(CropArgs(MergedPath(tile), CroppedPath(tile), DtmBounds(x, y)))
    requires CroppedPath(tile) !in fs
    ensures var e := Conduct(fs, DtmStage(fs, root, tile), tool);
      e.outcome == Raised && |e.done| == 5
      && e.files == fs - {MergedPath(tile)} + {PipelinePath(x, y)}
  {
    var tiles := Neighbours(fs, tile, Ground, x, y);
    var plan := DtmPlan(root, tile, tiles, x, y);
    DtmStageWork(fs, root, tile, x, y);
    NeighboursExist(fs, tile, Ground, x, y);
    DtmPlanCropFails(fs, root, tile, tiles, x, y, tool);
    WorkStopped(fs, DtmOutput(root, x, y), plan, tool, fs - {MergedPath(tile)} + {PipelinePath(x, y)}, 5);
  }

  /** A decodable tile without a DTM is worked on, with its gathered neighbours. */
  lemma DtmStageWork(fs: set<string>, root: string, tile: string, x: int, y: int)
    requires Decode(Ground, Basename(tile)) == Some((x, y)) && DtmOutput(root, x, y) !in fs
    ensures DtmStage(fs, root, tile) == Work(DtmOutput(root, x, y), DtmPlan(root, tile, Neighbours(fs, tile, Ground, x, y), x, y))
  {
  }

  /** Every path of the gathered list exists when the tile itself does. */
  lemma NeighboursExist(fs: set<string>, tile: string, layer: Layer, x: int, y: int)
    requires tile in fs
    ensures AllExist(fs, Neighbours(fs, tile, layer, x, y))
  {
    NeighboursShape(fs, tile, layer, x, y);
  }

  /**
   * Before its first command `create_dtm` raises on a name it cannot decode
   * and returns on an existing DTM; in both cases nothing changes.
   */
  lemma DtmBeforeWork(fs: set<string>, root: string, tile: string, tool: Tool)
    ensures Decode(Ground, Basename(tile)).None? ==> Conduct(fs, DtmStage(fs, root, tile), tool) == Effect(Raised, fs, [])
    ensures match Decode(Ground, Basename(tile))
      case None => true
      case Some((x, y)) =>
        DtmOutput(root, x, y) in fs ==> Conduct(fs, DtmStage(fs, root, tile), tool) == Effect(Skipped, fs, [])
  {
  }

  // ---------------------------------------------------------------- create_hillshade

  /** The shape of `HillshadePlan`, over arbitrary paths and command lines. */
  function HillshadeShape(tiles: seq<string>, vrt: string, full: string, out: string,
                          build: seq<Arg>, shade: seq<Arg>, cut: seq<Arg>): seq<Action>
  {
    [ Run(build, tiles, vrt),
      Run(shade, [vrt], full),
      Remove(vrt),
      Run(cut, [full], out),
      Remove(full) ]
  }

  lemma HillshadePlanShape(root: string, tiles: seq<string>, x: int, y: int)
    ensures HillshadePlan(root, tiles, x, y) == HillshadeShape(tiles, VrtPath(x, y), FullHillshadePath(x, y),
      HillshadeOutput(root, x, y), Lits(["gdalbuildvrt", VrtPath(x, y)] + tiles),
      Lits(["gdaldem", "hillshade", VrtPath(x, y), FullHillshadePath(x, y), "-alg", "Horn", "-s", "1.0", "-z", "0.5",
            "-alt", "42.5", "-multidirectional"]),
      CutArgs(FullHillshadePath(x, y), HillshadeOutput(root, x, y), x, y))
  {
  }

  /** The only files a hillshade-shaped plan may create are its two scratch files and its output. */
  lemma HillshadeShapeCreates(tiles: seq<string>, vrt: string, full: string, out: string,
                              build: seq<Arg>, shade: seq<Arg>, cut: seq<Arg>, p: string)
    ensures CreatedBy(HillshadeShape(tiles, vrt, full, out, build, shade, cut), p) ==> p in {vrt, full, out}
  {
    var plan := HillshadeShape(tiles, vrt, full, out, build, shade, cut);
    forall i | 0 <= i < |plan|
      ensures Creates(plan[i]) <= {vrt, full, out}
    {
    }
  }

  /** A hillshade-shaped plan that runs to its end removes both scratch files and changes nothing else but its output. */
  lemma HillshadeShapeFrame(fs: set<string>, tool: Tool, tiles: seq<string>, vrt: string, full: string, out: string,
                            build: seq<Arg>, shade: seq<Arg>, cut: seq<Arg>)
    requires vrt != out
    ensures var t := Apply(fs, HillshadeShape(tiles, vrt, full, out, build, shade, cut), tool);
      t.done == 5 ==> t.files - {out} == fs - {vrt, full} - {out}
  {
    var plan := HillshadeShape(tiles, vrt, full, out, build, shade, cut);
    var t := Apply(fs, plan, tool);
    if t.done == 5 {
      ApplyRemovedStaysGone(fs, plan, tool, 2, vrt);
      ApplyRemovedStaysGone(fs, plan, tool, 4, full);
      forall p | p in t.files - {out}
        ensures p in fs
      {
        ApplyFrame(fs, plan, tool, p);
        HillshadeShapeCreates(tiles, vrt, full, out, build, shade, cut, p);
      }
      forall p | p in fs - {vrt, full} - {out}
        ensures p in t.files
      {
        ApplyFrame(fs, plan, tool, p);
      }
    }
  }

  /**
   * A hillshade-shaped plan whose mosaic is not made, and did not exist,
   * raises at the removal of the mosaic, having changed nothing.
   */
  lemma HillshadeShapeMosaicFails(fs: set<string>, tool: Tool, tiles: seq<string>, vrt: string, full: string, out: string,
                                  build: seq<Arg>, shade: seq<Arg>, cut: seq<Arg>)
    requires !tool(build) && vrt !in fs
    ensures Apply(fs, HillshadeShape(tiles, vrt, full, out, build, shade, cut), tool) == Trace(fs, 2)
  {
    var plan := HillshadeShape(tiles, vrt, full, out, build, shade, cut);
    assert Step(fs, plan[2], tool) == None;
    ApplyAt(fs, plan, 2, tool);
    assert !AllExist(fs, [vrt]) by {
      assert [vrt][0] == vrt;
    }
    assert Step(fs, plan[1], tool) == Some(fs);
    ApplyAt(fs, plan, 1, tool);
    assert Step(fs, plan[0], tool) == Some(fs);
    ApplyAt(fs, plan, 0, tool);
    assert plan[0..] == plan;
  }

  lemma HillshadeNameStarts(x: int, y: int)
    ensures '/' !in VrtName(x, y) && VrtName(x, y) != [] && NumericStart(VrtName(x, y)[0])
    ensures '/' !in HillshadeName(x, y) && HillshadeName(x, y) != [] && HillshadeName(x, y)[0] == 'h'
  {
    IntToStringSeparators(x);
    IntToStringSeparators(y);
    assert VrtName(x, y)[0] == IntToString(x)[0];
  }

  /** The mosaic on the RAM disk is never the hillshade output. */
  lemma HillshadePathsDistinct(root: string, x: int, y: int)
    ensures VrtPath(x, y) != HillshadeOutput(root, x, y)
  {
    HillshadeNameStarts(x, y);
    JoinsDiffer(RamDisk, VrtName(x, y), PathJoin(root, "hillshade"), HillshadeName(x, y));
  }

  /** The two scratch files of `create_hillshade` on the RAM disk. */
  function HillshadeScratch(x: int, y: int): set<string> {
    {VrtPath(x, y), FullHillshadePath(x, y)}
  }

  lemma HillshadeStageWork(fs: set<string>, root: string, tile: string, x: int, y: int)
    requires Decode(Dtm, Basename(tile)) == Some((x, y)) && HillshadeOutput(root, x, y) !in fs
    ensures HillshadeStage(fs, root, tile) == Work(HillshadeOutput(root, x, y), HillshadePlan(root, Neighbours(fs, tile, Dtm, x, y), x, y))
  {
  }

  lemma HillshadePlanFrame(fs: set<string>, root: string, tiles: seq<string>, x: int, y: int, tool: Tool)
    ensures var t := Apply(fs, HillshadePlan(root, tiles, x, y), tool);
      var out := HillshadeOutput(root, x, y);
      t.done == 5 ==> t.files - {out} == fs - HillshadeScratch(x, y) - {out}
  {
    HillshadePlanShape(root, tiles, x, y);
    HillshadePathsDistinct(root, x, y);
    HillshadeShapeFrame(fs, tool, tiles, VrtPath(x, y), FullHillshadePath(x, y), HillshadeOutput(root, x, y),
      Lits(["gdalbuildvrt", VrtPath(x, y)] + tiles),
      Lits(["gdaldem", "hillshade", VrtPath(x, y), FullHillshadePath(x, y), "-alg", "Horn", "-s", "1.0", "-z", "0.5",
            "-alt", "42.5", "-multidirectional"]),
      CutArgs(FullHillshadePath(x, y), HillshadeOutput(root, x, y), x, y));
  }

  /** `create_hillshade` that runs to its end changes nothing but its output and removes both scratch files. */
  lemma HillshadeCompletedCleansUp(fs: set<string>, root: string, tile: string, x: int, y: int, tool: Tool)
    requires Decode(Dtm, Basename(tile)) == Some((x, y))
    ensures var e := Conduct(fs, HillshadeStage(fs, root, tile), tool);
      var out := HillshadeOutput(root, x, y);
      e.outcome == Completed ==> e.files - {out} == fs - HillshadeScratch(x, y) - {out}
  {
    var out := HillshadeOutput(root, x, y);
    if out !in fs {
      var plan := HillshadePlan(root, Neighbours(fs, tile, Dtm, x, y), x, y);
      HillshadeStageWork(fs, root, tile, x, y);
      HillshadePlanFrame(fs, root, Neighbours(fs, tile, Dtm, x, y), x, y, tool);
      WorkFrame(fs, out, plan, tool, HillshadeScratch(x, y));
    }
  }

  /**
   * When `gdalbuildvrt` makes no mosaic, `gdaldem` has nothing to read and
   * the removal of the mosaic raises: the stage fails having changed nothing.
   */
  lemma HillshadeMosaicFailureRaises(fs: set<string>, root: string, tile: string, x: int, y: int, tool: Tool)
    requires Decode(Dtm, Basename(tile)) == Some((x, y)) && HillshadeOutput(root, x, y) !in fs
    requires !tool(Lits(["gdalbuildvrt", VrtPath(x, y)] + Neighbours(fs, tile, Dtm, x, y)))
    requires VrtPath(x, y) !in fs
    ensures var e := Conduct(fs, HillshadeStage(fs, root, tile), tool);
      e.outcome == Raised && e.files == fs && |e.done| == 2
  {
    var tiles := Neighbours(fs, tile, Dtm, x, y);
    var plan := HillshadePlan(root, tiles, x, y);
    HillshadeStageWork(fs, root, tile, x, y);
    HillshadePlanShape(root, tiles, x, y);
    HillshadeShapeMosaicFails(fs, tool, tiles, VrtPath(x, y), FullHillshadePath(x, y), HillshadeOutput(root, x, y),
      Lits(["gdalbuildvrt", VrtPath(x, y)] + tiles),
      Lits(["gdaldem", "hillshade", VrtPath(x, y), FullHillshadePath(x, y), "-alg", "Horn", "-s", "1.0", "-z", "0.5",
            "-alt", "42.5", "-multidirectional"]),
      CutArgs(FullHillshadePath(x, y), HillshadeOutput(root, x, y), x, y));
    WorkStopped(fs, HillshadeOutput(root, x, y), plan, tool, fs, 2);
  }

  lemma HillshadeBeforeWork(fs: set<string>, root: string, tile: string, tool: Tool)
    ensures Decode(Dtm, Basename(tile)).None? ==> Conduct(fs, HillshadeStage(fs, root, tile), tool) == Effect(Raised, fs, [])
    ensures match Decode(Dtm, Basename(tile))
      case None => true
      case Some((x, y)) =>
        HillshadeOutput(root, x, y) in fs ==> Conduct(fs, HillshadeStage(fs, root, tile), tool) == Effect(Skipped, fs, [])
  {
  }

  // ---------------------------------------------------------------- create_ground

  /** The shape of `GroundPlan`, over arbitrary paths and command line. */
  function GroundShape(paths: seq<string>, las: string, out: string, args: seq<Arg>): seq<Action> {
    [Extract(paths), Run(args, [las], out), Remove(las)]
  }

  /**
   * A ground-shaped plan always runs to its end: the extracted entry is there
   * to be read and removed. What remains is everything extracted but that
   * entry, and the output when the filter made it.
   */
  lemma GroundShapeRuns(fs: set<string>, tool: Tool, paths: seq<string>, las: string, out: string, args: seq<Arg>)
    requires las in paths
    ensures Apply(fs, GroundShape(paths, las, out, args), tool)
      == Trace(fs + (set p | p in paths) + (if tool(args) then {out} else {}) - {las}, 3)
  {
    var plan := GroundShape(paths, las, out, args);
    var f1 := fs + (set p | p in paths);
    var f2 := f1 + (if tool(args) then {out} else {});
    assert las in f1 && las in f2;
    assert AllExist(f1, [las]);
    if tool(args) {
      assert Step(f1, plan[1], tool) == Some(f1 + {out});
    } else {
      assert Step(f1, plan[1], tool) == Some(f1);
      assert f2 == f1;
    }
    assert Step(f2, plan[2], tool) == Some(f2 - {las});
    ApplyAt(f2, plan, 2, tool);
    assert plan[3..] == [];
    assert Step(f1, plan[1], tool) == Some(f2);
    ApplyAt(f1, plan, 1, tool);
    assert Step(fs, plan[0], tool) == Some(f1);
    ApplyAt(fs, plan, 0, tool);
    assert plan[0..] == plan;
  }

  /** The plan of `create_ground` runs to its end, whatever the filter does. */
  lemma GroundPlanRuns(fs: set<string>, root: string, entries: seq<string>, tool: Tool)
    requires entries != []
    ensures var las, out := PathJoin(RamDisk, entries[0]), GroundOutput(root, entries[0]);
      Apply(fs, GroundPlan(root, entries), tool)
        == Trace(fs + (set p | p in Extracted(entries)) + (if tool(GroundArgs(las, out)) then {out} else {}) - {las}, 3)
  {
    var las, out := PathJoin(RamDisk, entries[0]), GroundOutput(root, entries[0]);
    var paths := Extracted(entries);
    assert paths[0] == las;
    GroundShapeRuns(fs, tool, paths, las, out, GroundArgs(las, out));
    assert GroundPlan(root, entries) == GroundShape(paths, las, out, GroundArgs(las, out));
  }

  /** A stage whose plan runs to its end completes, having done the whole plan. */
  lemma WorkCompleted(fs: set<string>, out: string, plan: seq<Action>, tool: Tool, files: set<string>)
    requires Apply(fs, plan, tool) == Trace(files, |plan|)
    ensures Conduct(fs, Work(out, plan), tool) == Effect(Completed, files, plan)
  {
    assert plan[..|plan|] == plan;
  }

  /**
   * `create_ground` of an archive with at least one entry and no output yet
   * always completes: every entry is extracted, the first is filtered and
   * its extracted copy removed (`ExtractedRemain`: the others stay).
   */
  lemma GroundWorkCompletes(fs: set<string>, root: string, archive: string, entries: seq<string>, tool: Tool)
    requires archive in fs && entries != [] && GroundOutput(root, entries[0]) !in fs
    ensures var las, out := PathJoin(RamDisk, entries[0]), GroundOutput(root, entries[0]);
      var e := Conduct(fs, GroundStage(fs, root, archive, entries), tool);
      && e.outcome == Completed
      && e.files == fs + (set p | p in Extracted(entries)) + (if tool(GroundArgs(las, out)) then {out} else {}) - {las}
  {
    var las, out := PathJoin(RamDisk, entries[0]), GroundOutput(root, entries[0]);
    var made := if tool(GroundArgs(las, out)) then {out} else {};
    var files := fs + (set p | p in Extracted(entries)) + made - {las};
    GroundPlanRuns(fs, root, entries, tool);
    GroundStageWork(fs, root, archive, entries);
    WorkCompleted(fs, out, GroundPlan(root, entries), tool, files);
  }

  lemma GroundStageWork(fs: set<string>, root: string, archive: string, entries: seq<string>)
    requires archive in fs && entries != [] && GroundOutput(root, entries[0]) !in fs
    ensures GroundStage(fs, root, archive, entries) == Work(GroundOutput(root, entries[0]), GroundPlan(root, entries))
  {
  }

  /** Extracted entries other than the removed one are among the files `create_ground` leaves. */
  lemma ExtractedRemain(fs: set<string>, entries: seq<string>, made: set<string>, las: string)
    ensures forall i :: 0 <= i < |entries| && PathJoin(RamDisk, entries[i]) != las ==>
      PathJoin(RamDisk, entries[i]) in fs + (set p | p in Extracted(entries)) + made - {las}
  {
    var paths := Extracted(entries);
    forall i | 0 <= i < |entries| && PathJoin(RamDisk, entries[i]) != las
      ensures PathJoin(RamDisk, entries[i]) in (set p | p in paths)
    {
      assert paths[i] == PathJoin(RamDisk, entries[i]);
    }
  }

  /** `create_ground` raises on a missing archive or one without entries, and returns on an existing output. */
  lemma GroundBeforeWork(fs: set<string>, root: string, archive: string, entries: seq<string>, tool: Tool)
    ensures archive !in fs || entries == [] ==>
      Conduct(fs, GroundStage(fs, root, archive, entries), tool) == Effect(Raised, fs, [])
    ensures archive in fs && entries != [] && GroundOutput(root, entries[0]) in fs ==>
      Conduct(fs, GroundStage(fs, root, archive, entries), tool) == Effect(Skipped, fs, [])
  {
  }

  // ---------------------------------------------------------------- the merge, the prefilter, the hand-over

  /** `pdal merge`, then the gathered tiles in their order, then the merged cloud. */
  lemma MergeArgsShape(tiles: seq<string>, merged: string)
    ensures var args := MergeArgs(tiles, merged);
      && |args| == |tiles| + 3
      && args[0] == Lit("pdal") && args[1] == Lit("merge")
      && (forall k :: 0 <= k < |tiles| ==> args[k + 2] == Lit(tiles[k]))
      && args[|tiles| + 2] == Lit(merged)
  {
    var words := ["pdal", "merge"] + tiles + [merged];
    assert forall k :: 0 <= k < |tiles| ==> words[k + 2] == tiles[k];
    assert words[|tiles| + 2] == merged;
  }

  /** `dtm_path_exists` raises, answers yes, answers no exactly when `create_dtm` raises, skips, works. */
  lemma DtmPathExistsAgrees(fs: set<string>, root: string, tile: string)
    ensures DtmPathExists(fs, root, tile).None? <==> DtmStage(fs, root, tile).Fails?
    ensures DtmPathExists(fs, root, tile) == Some(true) <==> DtmStage(fs, root, tile).Skip?
    ensures DtmPathExists(fs, root, tile) == Some(false) <==> DtmStage(fs, root, tile).Work?
  {
  }

  /**
   * The prefilter keeps exactly the tiles `create_dtm` would work on and drops
   * exactly those it would skip; it raises exactly when some tile would make
   * `create_dtm` raise.
   */
  lemma PrefilterKeepsWork(fs: set<string>, root: string, found: seq<string>)
    ensures Prefilter(fs, root, found).None? <==> exists t :: t in found && DtmStage(fs, root, t).Fails?
    ensures Prefilter(fs, root, found).Some? ==>
      forall t :: t in found ==>
        (t in Prefilter(fs, root, found).value <==> DtmStage(fs, root, t).Work?)
        && (t !in Prefilter(fs, root, found).value <==> DtmStage(fs, root, t).Skip?)
  {
    forall t | t in found
      ensures DtmPathExists(fs, root, t).None? <==> DtmStage(fs, root, t).Fails?
      ensures DtmPathExists(fs, root, t) == Some(true) <==> DtmStage(fs, root, t).Skip?
      ensures DtmPathExists(fs, root, t) == Some(false) <==> DtmStage(fs, root, t).Work?
    {
      DtmPathExistsAgrees(fs, root, t);
    }
  }

  /** The DTM written for a ground tile is a tile `create_hillshade` decodes to the same cell. */
  lemma DtmOutputFeedsHillshade(root: string, tile: string, x: int, y: int)
    requires Decode(Ground, Basename(tile)) == Some((x, y))
    ensures Decode(Dtm, Basename(DtmOutput(root, x, y))) == Some((x, y))
  {
    DtmNameStart(x, y);
    BasenameOfJoin(PathJoin(root, "dtm"), TileName(Dtm, x, y));
    DecodeTileName(Dtm, x, y);
  }
}
