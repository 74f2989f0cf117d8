/**
 * The machine the scripts run on, reduced to what they observe: the set of
 * paths that exist, and the log of actions they perform. External programs
 * (PDAL, GDAL, ImageMagick, wget) are opaque: a command creates its output
 * path when all its input paths exist and the `Tool` oracle says the program
 * succeeds on that argument vector. `os.remove` of a missing path raises.
 */
module Host {
  import opened Wrappers
  import opened Bounds

  /** One element of a command line; numbers and bounds are kept as values, not as text. */
  datatype Arg =
    | Lit(text: string)
    | Num(value: real)
    | Bounds(key: string, box: Box)

  /** Whether an external program succeeds on an argument vector. */
  type Tool = seq<Arg> -> bool

  datatype Action =
    | /** Run a command that reads `inputs` and writes `output`. */
      Run(argv: seq<Arg>, inputs: seq<string>, output: string)
    | /** `ZipFile.extractall`: every listed path comes into existence. */
      Extract(paths: seq<string>)
    | /** Dump a PDAL pipeline reading `source` and writing the raster `raster` over `bounds`. */
      WritePipeline(path: string, source: string, raster: string, bounds: Box)
    | /** `os.remove(path)`. */
      Remove(path: string)

  /** A command line made of literal words. */
  function Lits(ss: seq<string>): (args: seq<Arg>)
    ensures |args| == |ss|
    ensures forall i :: 0 <= i < |ss| ==> args[i] == Lit(ss[i])
  {
    if ss == [] then [] else [Lit(ss[0])] + Lits(ss[1..])
  }

  predicate AllExist(fs: set<string>, paths: seq<string>) {
    forall i :: 0 <= i < |paths| ==> paths[i] in fs
  }

  /** Whether a command's output comes into existence. */
  predicate Produces(fs: set<string>, argv: seq<Arg>, inputs: seq<string>, tool: Tool) {
    AllExist(fs, inputs) && tool(argv)
  }

  /** The existing paths after one action, or `None` when the action raises. */
  function Step(fs: set<string>, a: Action, tool: Tool): (r: Option<set<string>>)
    ensures r.None? <==> a.Remove? && a.path !in fs
  {
    match a
    case Run(argv, inputs, output) =>
      Some(if Produces(fs, argv, inputs, tool) then fs + {output} else fs)
    case Extract(paths) => Some(fs + (set p | p in paths))
    case WritePipeline(path, _, _, _) => Some(fs + {path})
    case Remove(path) => if path in fs then Some(fs - {path}) else None
  }

  /** Where a plan ends: the existing paths, and how many of its actions ran to completion. */
  datatype Trace = Trace(files: set<string>, done: nat)

  /**
   * Runs a plan from its first action and stops at the first action that
   * raises; that action is not counted as done.
   */
  function Apply(fs: set<string>, plan: seq<Action>, tool: Tool): (r: Trace)
    ensures r.done <= |plan|
    decreases |plan|
  {
    if plan == [] then Trace(fs, 0)
    else
      match Step(fs, plan[0], tool)
      case None => Trace(fs, 0)
      case Some(next) =>
        var rest := Apply(next, plan[1..], tool);
        Trace(rest.files, rest.done + 1)
  }

  /** What one script function ends in. */
  datatype Outcome = Skipped | Completed | Raised

  /**
   * What a script function decides before touching anything: it raises
   * (a malformed name, an empty archive), returns because its output exists,
   * or carries out a fixed plan that produces `output`.
   */
  datatype Stage = Fails | Skip(output: string) | Work(output: string, plan: seq<Action>)

  /** The whole effect of a stage: how it ends, the paths that exist after it, the actions done. */
  datatype Effect = Effect(outcome: Outcome, files: set<string>, done: seq<Action>)

  function Conduct(fs: set<string>, stage: Stage, tool: Tool): (e: Effect)
    ensures !stage.Work? ==> e.files == fs && e.done == []
    ensures e.outcome == Completed <==> stage.Work? && Apply(fs, stage.plan, tool).done == |stage.plan|
    ensures e.outcome == Skipped <==> stage.Skip?
  {
    match stage
    case Fails => Effect(Raised, fs, [])
    case Skip(_) => Effect(Skipped, fs, [])
    case Work(_, plan) =>
      var t := Apply(fs, plan, tool);
      Effect(if t.done == |plan| then Completed else Raised, t.files, plan[..t.done])
  }

  // ---------------------------------------------------------------- plan facts

  /** Running a plan that starts with `a` is running `a`, then the rest. */
  lemma ApplyCons(fs: set<string>, a: Action, rest: seq<Action>, tool: Tool)
    ensures Apply(fs, [a] + rest, tool) ==
      match Step(fs, a, tool)
      case None => Trace(fs, 0)
      case Some(next) => Trace(Apply(next, rest, tool).files, Apply(next, rest, tool).done + 1)
  {
    assert ([a] + rest)[0] == a && ([a] + rest)[1..] == rest;
  }

  /** Running two plans one after the other: the second starts only if the first completed. */
  lemma {:induction false} ApplyAppend(fs: set<string>, p: seq<Action>, q: seq<Action>, tool: Tool)
    ensures var first := Apply(fs, p, tool);
      Apply(fs, p + q, tool) ==
        if first.done < |p| then first
        else Trace(Apply(first.files, q, tool).files, |p| + Apply(first.files, q, tool).done)
    decreases |p|
  {
    if p == [] {
      assert p + q == q;
    } else {
      assert (p + q)[0] == p[0] && (p + q)[1..] == p[1..] + q;
      match Step(fs, p[0], tool)
      case None =>
      case Some(next) =>
        ApplyAppend(next, p[1..], q, tool);
    }
  }

  /**
   * A plan stops early only at an `os.remove` of a path that does not exist
   * once the actions before it have run.
   */
  lemma {:induction false} ApplyStopsAtMissingRemove(fs: set<string>, plan: seq<Action>, tool: Tool)
    ensures var t := Apply(fs, plan, tool);
      t.done < |plan| ==>
        plan[t.done].Remove? && plan[t.done].path !in t.files
        && t.files == Apply(fs, plan[..t.done], tool).files
    decreases |plan|
  {
    if plan != [] {
      match Step(fs, plan[0], tool)
      case None =>
        assert plan[..0] == [];
      case Some(next) =>
        ApplyStopsAtMissingRemove(next, plan[1..], tool);
        var t := Apply(next, plan[1..], tool);
        if t.done < |plan[1..]| {
          assert plan[1..][..t.done] == plan[..t.done + 1][1..];
          assert plan[..t.done + 1][0] == plan[0];
        }
    }
  }

  /** The paths an action may bring into existence. */
  function Creates(a: Action): set<string> {
    match a
    case Run(_, _, output) => {output}
    case Extract(paths) => set p | p in paths
    case WritePipeline(path, _, _, _) => {path}
    case Remove(_) => {}
  }

  /** Some action of `plan` may create `p`. */
  predicate CreatedBy(plan: seq<Action>, p: string) {
    exists i :: 0 <= i < |plan| && p in Creates(plan[i])
  }

  /** Some action of `plan` removes `p`. */
  predicate RemovedBy(plan: seq<Action>, p: string) {
    exists i :: 0 <= i < |plan| && plan[i] == Remove(p)
  }

  /** Running a plan from its `k`-th action: that action, then the ones after it. */
  lemma ApplyAt(fs: set<string>, plan: seq<Action>, k: nat, tool: Tool)
    requires k < |plan|
    ensures Apply(fs, plan[k..], tool) ==
      match Step(fs, plan[k], tool)
      case None => Trace(fs, 0)
      case Some(next) => Trace(Apply(next, plan[k + 1..], tool).files, Apply(next, plan[k + 1..], tool).done + 1)
  {
    assert plan[k..][0] == plan[k] && plan[k..][1..] == plan[k + 1..];
  }

  /**
   * Frame of a plan: a path exists afterwards only if it existed before or
   * some action may create it, and a path that existed and that no action
   * removes still exists.
   */
  lemma {:induction false} ApplyFrame(fs: set<string>, plan: seq<Action>, tool: Tool, p: string)
    ensures p in Apply(fs, plan, tool).files ==> p in fs || CreatedBy(plan, p)
    ensures p in fs && !RemovedBy(plan, p) ==> p in Apply(fs, plan, tool).files
    decreases |plan|
  {
    if plan != [] {
      match Step(fs, plan[0], tool)
      case None =>
      case Some(next) =>
        ApplyFrame(next, plan[1..], tool, p);
        if p in Apply(fs, plan, tool).files && p !in fs {
          if p in next {
            assert p in Creates(plan[0]);
          } else {
            var i :| 0 <= i < |plan[1..]| && p in Creates(plan[1..][i]);
            assert plan[1..][i] == plan[i + 1];
          }
        }
        if p in fs && !RemovedBy(plan, p) {
          assert plan[0] != Remove(p);
          forall i | 0 <= i < |plan[1..]|
            ensures plan[1..][i] != Remove(p)
          {
            assert plan[1..][i] == plan[i + 1];
          }
        }
    }
  }

  /** A completed plan leaves no path that one of its actions removes and no later action creates. */
  lemma {:induction false} ApplyRemovedStaysGone(fs: set<string>, plan: seq<Action>, tool: Tool, i: nat, p: string)
    requires Apply(fs, plan, tool).done == |plan|
    requires i < |plan| && plan[i] == Remove(p)
    requires forall j :: i < j < |plan| ==> p !in Creates(plan[j])
    ensures p !in Apply(fs, plan, tool).files
    decreases |plan|
  {
    var next := Step(fs, plan[0], tool).value;
    if i == 0 {
      forall j | 0 <= j < |plan[1..]|
        ensures p !in Creates(plan[1..][j])
      {
        assert plan[1..][j] == plan[j + 1];
      }
      ApplyFrame(next, plan[1..], tool, p);
    } else {
      assert plan[1..][i - 1] == plan[i];
      forall j | i - 1 < j < |plan[1..]|
        ensures p !in Creates(plan[1..][j])
      {
        assert plan[1..][j] == plan[j + 1];
      }
      ApplyRemovedStaysGone(next, plan[1..], tool, i - 1, p);
    }
  }

  // ---------------------------------------------------------------- the machine

  class Machine {
    /** The paths that exist. */
    var files: set<string>
    /** Every action performed so far, in order. */
    var log: seq<Action>

    constructor(existing: set<string>)
      ensures files == existing && log == []
    {
      files := existing;
      log := [];
    }

    /** Performs one action; `ok` is false when it raises, and then nothing changes. */
    method Execute(a: Action, tool: Tool) returns (ok: bool)
      modifies this
      ensures ok <==> Step(old(files), a, tool).Some?
      ensures ok ==> files == Step(old(files), a, tool).value && log == old(log) + [a]
      ensures !ok ==> files == old(files) && log == old(log)
    {
      match a {
        case Run(argv, inputs, output) =>
          if Produces(files, argv, inputs, tool) {
            files := files + {output};
          }
          ok := true;
        case Extract(paths) =>
          files := files + (set p | p in paths);
          ok := true;
        case WritePipeline(path, _, _, _) =>
          files := files + {path};
          ok := true;
        case Remove(path) =>
          ok := path in files;
          if ok {
            files := files - {path};
          }
      }
      if ok {
        log := log + [a];
      }
    }

    /** Performs the actions of a plan in order, stopping at the first one that raises. */
    method Perform(plan: seq<Action>, tool: Tool) returns (done: nat)
      modifies this
      ensures var t := Apply(old(files), plan, tool);
        done == t.done && files == t.files && log == old(log) + plan[..done]
    {
      done := 0;
      while done < |plan|
        invariant done <= |plan|
        invariant var rest := Apply(files, plan[done..], tool);
          Apply(old(files), plan, tool) == Trace(rest.files, done + rest.done)
        invariant log == old(log) + plan[..done]
      {
        assert plan[done..][0] == plan[done] && plan[done..][1..] == plan[done + 1..];
        var ok := Execute(plan[done], tool);
        if !ok {
          return;
        }
        assert plan[..done + 1] == plan[..done] + [plan[done]];
        done := done + 1;
      }
    }

    /** Carries out a stage: nothing for a failing or skipped one, its plan for a working one. */
    method Enact(stage: Stage, tool: Tool) returns (outcome: Outcome)
      modifies this
      ensures |old(log)| <= |log| && log[..|old(log)|] == old(log)
      ensures Effect(outcome, files, log[|old(log)|..]) == Conduct(old(files), stage, tool)
    {
      match stage
      case Fails =>
        outcome := Raised;
      case Skip(_) =>
        outcome := Skipped;
      case Work(_, plan) =>
        var done := Perform(plan, tool);
        outcome := if done == |plan| then Completed else Raised;
    }
  }
}
