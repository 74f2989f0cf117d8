/**
 * The module-level code of `create_dem.py`: three phases, each mapping one
 * stage over the files found by a glob with `Pool.map`. The pool cuts the
 * items into chunks; a worker abandons the rest of its chunk once an item
 * raises, and the first exception is re-raised once every chunk is done;
 * the script then stops. Workers are modelled as running the chunks one
 * after the other, in the order of the list.
 *
 * `glob` and the archive listing `names` (`ZipFile.namelist`) are parameters:
 * what they return is not modelled.
 */
module Drivers {
  import opened Wrappers
  import opened Paths
  import opened Host
  import opened Stages
  import opened Sweeps
  import opened Pool

  /** One item handed to a pool worker. */
  datatype Unit =
    | FilterGround(archive: string, entries: seq<string>)
    | MakeDtm(tile: string)
    | MakeHillshade(tile: string)

  function UnitStage(fs: set<string>, root: string, u: Unit): Stage {
    match u
    case FilterGround(archive, entries) => GroundStage(fs, root, archive, entries)
    case MakeDtm(tile) => DtmStage(fs, root, tile)
    case MakeHillshade(tile) => HillshadeStage(fs, root, tile)
  }

  /** How one item ends when the stage it names starts on `fs`. */
  function Runner(root: string, tool: Tool): (set<string>, Unit) -> Effect {
    (fs: set<string>, u: Unit) => Conduct(fs, UnitStage(fs, root, u), tool)
  }

  /**
   * `run` tells how every item ends, as `Runner` does. The quantifier is only
   * instantiated where an item's stage is in view, so the worker loops, which
   * pass `run` along, never unfold the stages.
   */
  ghost predicate Conducts(run: (set<string>, Unit) -> Effect, root: string, tool: Tool) {
    forall fs, u {:trigger UnitStage(fs, root, u)} :: run(fs, u) == Conduct(fs, UnitStage(fs, root, u), tool)
  }

  lemma RunnerConducts(root: string, tool: Tool)
    ensures Conducts(Runner(root, tool), root, tool)
  {
  }

  /** Runs one item with the stage function it names. */
  method RunUnit(m: Machine, root: string, u: Unit, tool: Tool, ghost run: (set<string>, Unit) -> Effect)
    returns (outcome: Outcome)
    requires Conducts(run, root, tool)
    modifies m
    ensures |old(m.log)| <= |m.log| && m.log[..|old(m.log)|] == old(m.log)
    ensures Effect(outcome, m.files, m.log[|old(m.log)|..]) == run(old(m.files), u)
  {
    ghost var stage := UnitStage(m.files, root, u);
    match u
    case FilterGround(archive, entries) =>
      outcome := CreateGround(m, root, archive, entries, tool);
    case MakeDtm(tile) =>
      outcome := CreateDtm(m, root, tile, tool);
    case MakeHillshade(tile) =>
      outcome := CreateHillshade(m, root, tile, tool);
  }

  /**
   * A worker running one chunk: item after item, until one raises.
   * `outcomes` says how each item that ran ended.
   */
  method RunChunkOf(m: Machine, root: string, chunk: seq<Unit>, tool: Tool, ghost run: (set<string>, Unit) -> Effect)
    returns (outcomes: seq<Outcome>)
    requires Conducts(run, root, tool)
    modifies m
    ensures var s := RunChunk(old(m.files), chunk, run);
      m.files == s.files && m.log == old(m.log) + s.done && outcomes == s.outcomes
  {
    ghost var whole := RunChunk(m.files, chunk, run);
    ghost var done: seq<Action> := [];
    outcomes := [];
    var i := 0;
    assert chunk[i..] == chunk;
    while i < |chunk|
      invariant 0 <= i <= |chunk|
      invariant m.log == old(m.log) + done
      invariant var rest := RunChunk(m.files, chunk[i..], run);
        whole == Sweep(rest.files, done + rest.done, outcomes + rest.outcomes)
    {
      ghost var before, fsb := m.log, m.files;
      var o := RunUnit(m, root, chunk[i], tool, run);
      ghost var d := m.log[|before|..];
      Extends(before, m.log);
      Regroup(old(m.log), done, d);
      WorkerStep(whole, done, outcomes, fsb, chunk, i, run, o, m.files, d);
      done, outcomes := done + d, outcomes + [o];
      if o == Raised {
        return;
      }
      i := i + 1;
    }
    assert chunk[i..] == [];
  }

  /** `Pool(workers).map` over `units`: every chunk runs; `outcomes` says how each item that ran ended. */
  method RunUnits(m: Machine, root: string, units: seq<Unit>, workers: nat, tool: Tool,
                  ghost run: (set<string>, Unit) -> Effect)
    returns (outcomes: seq<Outcome>)
    requires workers > 0 && Conducts(run, root, tool)
    modifies m
    ensures var s := PoolMap(old(m.files), units, run, workers);
      m.files == s.files && m.log == old(m.log) + s.done && outcomes == s.outcomes
  {
    outcomes := [];
    if units == [] {
      assert m.log == m.log + [];
      return;
    }
    var chunks := Chunks(units, ChunkSize(|units|, workers));
    ghost var whole := SweepChunks(m.files, chunks, run);
    var k := 0;
    while k < |chunks|
      invariant 0 <= k <= |chunks|
      invariant var rest := SweepChunks(m.files, chunks[k..], run);
        whole.files == rest.files && old(m.log) + whole.done == m.log + rest.done
        && whole.outcomes == outcomes + rest.outcomes
    {
      ghost var before, fsb := m.log, m.files;
      ghost var cur := SweepChunks(fsb, chunks[k..], run);
      var os := RunChunkOf(m, root, chunks[k], tool, run);
      ghost var a := RunChunk(fsb, chunks[k], run);
      Extends(before, m.log);
      assert chunks[k..][0] == chunks[k] && chunks[k..][1..] == chunks[k + 1..];
      KeepChunkInvariant(old(m.log), whole, before, outcomes, cur, a, SweepChunks(m.files, chunks[k + 1..], run));
      outcomes := outcomes + os;
      k := k + 1;
    }
    assert chunks[k..] == [];
  }

  lemma KeepChunkInvariant(start: seq<Action>, whole: Sweep, log: seq<Action>, outcomes: seq<Outcome>,
                           cur: Sweep, a: Sweep, rest: Sweep)
    requires whole.files == cur.files && start + whole.done == log + cur.done
    requires whole.outcomes == outcomes + cur.outcomes
    requires cur == Sweep(rest.files, a.done + rest.done, a.outcomes + rest.outcomes)
    ensures whole.files == rest.files && start + whole.done == (log + a.done) + rest.done
    ensures whole.outcomes == (outcomes + a.outcomes) + rest.outcomes
  {
  }

  // ---------------------------------------------------------------- the script

  /** What `glob.glob(pattern)` returns when `fs` holds the existing paths. */
  type Glob = (set<string>, string) -> seq<string>

  function GroundPattern(root: string): string {
    PathJoin(PathJoin(root, "tiles"), "*.las.zip")
  }

  function DtmPattern(root: string): string {
    PathJoin(PathJoin(root, "ground"), "*.laz")
  }

  function HillshadePattern(root: string): string {
    PathJoin(PathJoin(root, "dtm"), "*.tif")
  }

  function GroundUnits(archives: seq<string>, names: string -> seq<string>): (us: seq<Unit>)
    ensures |us| == |archives|
    ensures forall i :: 0 <= i < |archives| ==> us[i] == FilterGround(archives[i], names(archives[i]))
  {
    seq(|archives|, i requires 0 <= i < |archives| => FilterGround(archives[i], names(archives[i])))
  }

  function DtmUnits(tiles: seq<string>): (us: seq<Unit>)
    ensures |us| == |tiles|
    ensures forall i :: 0 <= i < |tiles| ==> us[i] == MakeDtm(tiles[i])
  {
    seq(|tiles|, i requires 0 <= i < |tiles| => MakeDtm(tiles[i]))
  }

  function HillshadeUnits(tiles: seq<string>): (us: seq<Unit>)
    ensures |us| == |tiles|
    ensures forall i :: 0 <= i < |tiles| ==> us[i] == MakeHillshade(tiles[i])
  {
    seq(|tiles|, i requires 0 <= i < |tiles| => MakeHillshade(tiles[i]))
  }

  /** The pool sizes of the three phases. */
  const GroundWorkers: nat := 16
  const DtmWorkers: nat := 10
  const HillshadeWorkers: nat := 16

  /** How the script ends: the files, the actions done, how many phases finished without raising. */
  datatype Finish = Finish(files: set<string>, done: seq<Action>, phases: nat)

  /**
   * Ground filtering of every archive; then, unless it raised, the DTM of
   * every ground tile the prefilter keeps; then, unless that raised, the
   * hillshade of every DTM tile.
   */
  function Script(fs: set<string>, root: string, glob: Glob, names: string -> seq<string>, tool: Tool): (f: Finish)
    ensures f.phases <= 3
  {
    var s1 := PoolMap(fs, GroundUnits(glob(fs, GroundPattern(root)), names), Runner(root, tool), GroundWorkers);
    if Raised in s1.outcomes then Finish(s1.files, s1.done, 0)
    else
      match Prefilter(s1.files, root, glob(s1.files, DtmPattern(root)))
      case None => Finish(s1.files, s1.done, 1)
      case Some(todo) =>
        var s2 := PoolMap(s1.files, DtmUnits(todo), Runner(root, tool), DtmWorkers);
        if Raised in s2.outcomes then Finish(s2.files, s1.done + s2.done, 1)
        else
          var s3 := PoolMap(s2.files, HillshadeUnits(glob(s2.files, HillshadePattern(root))), Runner(root, tool), HillshadeWorkers);
          Finish(s3.files, s1.done + s2.done + s3.done, if Raised in s3.outcomes then 2 else 3)
  }

  method RunScript(m: Machine, root: string, glob: Glob, names: string -> seq<string>, tool: Tool)
    returns (phases: nat)
    modifies m
    ensures var f := Script(old(m.files), root, glob, names, tool);
      m.files == f.files && m.log == old(m.log) + f.done && phases == f.phases
  {
    ghost var fs0, log0 := m.files, m.log;
    ghost var run := Runner(root, tool);
    RunnerConducts(root, tool);
    var archives := glob(m.files, GroundPattern(root));
    var o1 := RunUnits(m, root, GroundUnits(archives, names), GroundWorkers, tool, run);
    ghost var s1 := PoolMap(fs0, GroundUnits(archives, names), run, GroundWorkers);
    if Raised in o1 {
      return 0;
    }
    var found := Prefilter(m.files, root, glob(m.files, DtmPattern(root)));
    if found.None? {
      return 1;
    }
    var o2 := RunUnits(m, root, DtmUnits(found.value), DtmWorkers, tool, run);
    ghost var s2 := PoolMap(s1.files, DtmUnits(found.value), run, DtmWorkers);
    Regroup(log0, s1.done, s2.done);
    if Raised in o2 {
      return 1;
    }
    var dtms := glob(m.files, HillshadePattern(root));
    var o3 := RunUnits(m, root, HillshadeUnits(dtms), HillshadeWorkers, tool, run);
    ghost var s3 := PoolMap(s2.files, HillshadeUnits(dtms), run, HillshadeWorkers);
    Regroup(log0, s1.done + s2.done, s3.done);
    phases := if Raised in o3 then 2 else 3;
  }

  // ---------------------------------------------------------------- properties

  /**
   * Re-running a phase whose every output is already there does nothing:
   * each stage returns before touching anything.
   */
  lemma PhaseAllDone(fs: set<string>, root: string, units: seq<Unit>, workers: nat, tool: Tool)
    requires workers > 0
    requires forall i :: 0 <= i < |units| ==> UnitStage(fs, root, units[i]).Skip?
    ensures var s := PoolMap(fs, units, Runner(root, tool), workers);
      s.files == fs && s.done == [] && Raised !in s.outcomes
  {
    var run := Runner(root, tool);
    forall i | 0 <= i < |units|
      ensures run(fs, units[i]) == Effect(Skipped, fs, [])
    {
      assert UnitStage(fs, root, units[i]).Skip?;
    }
    SweepAllSkip(fs, units, run);
    PoolWithoutRaise(fs, units, run, workers);
  }
}
