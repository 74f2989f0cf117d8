/**
 * `convert_to_jpeg.py`: a pass that deletes the 206-byte placeholder PNG
 * tiles, then one ImageMagick `mogrify` per tile directory, writing JPEGs
 * into the mirror directory under `tmsjpeg`.
 *
 * The files found by the recursive glob are a parameter, and so is
 * `os.path.getsize`, as a function from path to size; `getsize` of a path
 * that does not exist raises, and nothing catches it.
 */
module Recompress {
  import opened Text
  import opened Paths
  import opened Host
  import opened Neighbourhood
  import Sweeps

  /** The size in bytes of the blank tile the renderer writes for an empty area. */
  const PlaceholderSize: nat := 206

  /** A progress line is printed every this many files. */
  const ProgressEvery: nat := 100000

  /** Where the pass looks: every `.png` under `tms`, at any depth. */
  function PlaceholderPattern(here: string): string {
    PathJoin(PathJoin(PathJoin(here, "tms"), "**"), "*.png")
  }

  /** What the pass leaves: the paths, the counter, the counter values printed, the removals, whether it raised. */
  datatype Pass = Pass(files: set<string>, count: nat, marks: seq<nat>, done: seq<Action>, crashed: bool)

  /**
   * The pass over `found` with the counter at `count`: each file bumps the
   * counter, prints it on a multiple of `ProgressEvery`, has its size read
   * (raising when it is missing) and is removed when it has the placeholder size.
   */
  function Prune(fs: set<string>, found: seq<string>, size: string -> nat, count: nat): (p: Pass)
    ensures p.files <= fs
    ensures count <= p.count <= count + |found|
    ensures !p.crashed ==> p.count == count + |found|
    decreases |found|
  {
    if found == [] then Pass(fs, count, [], [], false)
    else
      var c := count + 1;
      var mark := if c % ProgressEvery == 0 then [c] else [];
      var path := found[0];
      if path !in fs then Pass(fs, c, mark, [], true)
      else if size(path) == PlaceholderSize then
        var rest := Prune(fs - {path}, found[1..], size, c);
        Pass(rest.files, rest.count, mark + rest.marks, [Remove(path)] + rest.done, rest.crashed)
      else
        var rest := Prune(fs, found[1..], size, c);
        Pass(rest.files, rest.count, mark + rest.marks, rest.done, rest.crashed)
  }

  /** The deletion loop, on the machine's files. */
  method DeletePlaceholders(m: Machine, found: seq<string>, size: string -> nat)
    returns (count: nat, marks: seq<nat>, crashed: bool)
    modifies m
    ensures var p := Prune(old(m.files), found, size, 0);
      m.files == p.files && m.log == old(m.log) + p.done
      && count == p.count && marks == p.marks && crashed == p.crashed
  {
    ghost var whole := Prune(m.files, found, size, 0);
    ghost var done: seq<Action> := [];
    count, marks, crashed := 0, [], false;
    var i := 0;
    while i < |found|
      invariant 0 <= i <= |found| && count == i && !crashed
      invariant m.log == old(m.log) + done
      invariant var rest := Prune(m.files, found[i..], size, count);
        whole == Pass(rest.files, rest.count, marks + rest.marks, done + rest.done, rest.crashed)
    {
      assert found[i..][0] == found[i] && found[i..][1..] == found[i + 1..];
      var path := found[i];
      count := count + 1;
      var mark := if count % ProgressEvery == 0 then [count] else [];
      if path !in m.files {
        marks := marks + mark;
        crashed := true;
        return;
      }
      ghost var step: seq<Action> := [];
      if size(path) == PlaceholderSize {
        // A removal consults no external program.
        var ok := m.Execute(Remove(path), _ => false);
        step := [Remove(path)];
      }
      ghost var next := Prune(m.files, found[i + 1..], size, count);
      Sweeps.Regroup(marks, mark, next.marks);
      Sweeps.Regroup(done, step, next.done);
      Sweeps.Regroup(old(m.log), done, step);
      marks := marks + mark;
      done := done + step;
      i := i + 1;
    }
    assert found[i..] == [];
  }

  // ---------------------------------------------------------------- properties of the pass

  /** The counter ends at the number of files visited: all of them, or up to the one that raised. */
  lemma {:induction false} PruneCount(fs: set<string>, found: seq<string>, size: string -> nat, count: nat)
    ensures var p := Prune(fs, found, size, count);
      && (!p.crashed ==> p.count == count + |found|)
      && (p.crashed ==> count < p.count <= count + |found|)
    decreases |found|
  {
    if found != [] && found[0] in fs {
      var next := if size(found[0]) == PlaceholderSize then fs - {found[0]} else fs;
      PruneCount(next, found[1..], size, count + 1);
    }
  }

  /** The multiples of `ProgressEvery` in `(lo, hi]`, in increasing order. */
  function Multiples(lo: nat, hi: nat): (r: seq<nat>)
    ensures forall k :: k in r <==> lo < k <= hi && k % ProgressEvery == 0
    ensures forall i, j :: 0 <= i < j < |r| ==> r[i] < r[j]
    decreases hi
  {
    if hi <= lo then []
    else
      var below := Multiples(lo, hi - 1);
      forall k | 0 <= k < |below|
        ensures below[k] < hi
      {
        assert below[k] in below;
      }
      below + (if hi % ProgressEvery == 0 then [hi] else [])
  }

  /** Splitting off the first number of the range. */
  lemma {:induction false} MultiplesFront(lo: nat, hi: nat)
    requires lo < hi
    ensures Multiples(lo, hi) == (if (lo + 1) % ProgressEvery == 0 then [lo + 1] else []) + Multiples(lo + 1, hi)
    decreases hi
  {
    if lo + 1 < hi {
      MultiplesFront(lo, hi - 1);
    }
  }

  /** The pass prints exactly the multiples of `ProgressEvery` the counter passes through, in order. */
  lemma {:induction false} PruneMarks(fs: set<string>, found: seq<string>, size: string -> nat, count: nat)
    ensures var p := Prune(fs, found, size, count);
      p.marks == Multiples(count, p.count)
    decreases |found|
  {
    var p := Prune(fs, found, size, count);
    if found != [] {
      PruneCount(fs, found, size, count);
      MultiplesFront(count, p.count);
      if found[0] in fs {
        var next := if size(found[0]) == PlaceholderSize then fs - {found[0]} else fs;
        PruneMarks(next, found[1..], size, count + 1);
      }
    }
  }

  /** The pass only ever removes visited placeholder files: every other path stays. */
  lemma {:induction false} PruneFrame(fs: set<string>, found: seq<string>, size: string -> nat, count: nat)
    ensures var p := Prune(fs, found, size, count);
      && p.files <= fs
      && forall q :: q in fs && q !in p.files ==> q in found && size(q) == PlaceholderSize
    decreases |found|
  {
    if found != [] && found[0] in fs {
      var next := if size(found[0]) == PlaceholderSize then fs - {found[0]} else fs;
      PruneFrame(next, found[1..], size, count + 1);
      var p := Prune(fs, found, size, count);
      forall q | q in fs && q !in p.files
        ensures q in found && size(q) == PlaceholderSize
      {
        if q in next {
          assert q in found[1..];
        }
      }
    }
  }

  /** The placeholder files among `found`. */
  function Placeholders(found: seq<string>, size: string -> nat): set<string> {
    set q | q in found && size(q) == PlaceholderSize
  }

  /**
   * When the glob lists existing files without repeats, the pass does not
   * raise and leaves exactly the files that are not placeholders.
   */
  lemma {:induction false} PruneComplete(fs: set<string>, found: seq<string>, size: string -> nat, count: nat)
    requires Distinct(found)
    requires forall i :: 0 <= i < |found| ==> found[i] in fs
    ensures var p := Prune(fs, found, size, count);
      !p.crashed && p.files == fs - Placeholders(found, size)
    decreases |found|
  {
    if found != [] {
      var path := found[0];
      var rest := found[1..];
      var next := if size(path) == PlaceholderSize then fs - {path} else fs;
      assert Distinct(rest) by {
        forall i, j | 0 <= i < j < |rest|
          ensures rest[i] != rest[j]
        {
          assert rest[i] == found[i + 1] && rest[j] == found[j + 1];
        }
      }
      forall i | 0 <= i < |rest|
        ensures rest[i] in next
      {
        assert rest[i] == found[i + 1] && found[i + 1] != found[0];
      }
      PruneComplete(next, rest, size, count + 1);
      forall j | 0 <= j < |rest|
        ensures rest[j] != path
      {
        assert rest[j] == found[j + 1];
      }
      assert found == [path] + rest;
      assert Placeholders(found, size) == (if size(path) == PlaceholderSize then {path} else {}) + Placeholders(rest, size);
    }
  }

  /** A placeholder listed twice makes the pass raise: it is gone by the second visit. */
  lemma PruneRepeatRaises(fs: set<string>, q: string, size: string -> nat)
    requires q in fs && size(q) == PlaceholderSize
    ensures var p := Prune(fs, [q, q], size, 0);
      p.crashed && p.count == 2 && p.files == fs - {q} && p.done == [Remove(q)]
  {
    assert [q, q][1..] == [q];
    assert [q][1..] == [];
  }

  // ---------------------------------------------------------------- the conversion

  /** `process_directory`'s output directory: every `tms` in the path becomes `tmsjpeg`. */
  function MirrorDir(dir: string): (r: string)
    ensures NoTms(dir) ==> r == dir
  {
    assert NoTms(dir) ==> ReplaceAll(dir, "tms", "tmsjpeg") == dir by {
      if NoTms(dir) {
        ReplaceAllNoMatch(dir, "tms", "tmsjpeg");
      }
    }
    ReplaceAll(dir, "tms", "tmsjpeg")
  }

  ghost predicate NoTms(s: string) {
    forall i :: !OccursAt(s, "tms", i)
  }

  /**
   * A directory under `<root>/tms/` maps to the same place under
   * `<root>/tmsjpeg/` when neither the root nor the rest of the path contains `tms`.
   */
  lemma MirrorUnderRoot(root: string, sub: string)
    requires NoTms(root) && NoTms(sub)
    ensures MirrorDir(root + "/tms/" + sub) == root + "/tmsjpeg/" + sub
  {
    assert '/' !in "tms";
    ReplaceComponent(root, sub, "tms", "tmsjpeg", '/');
    assert root + "/tms/" + sub == root + ['/'] + "tms" + ['/'] + sub;
    assert root + ['/'] + "tmsjpeg" + ['/'] + sub == root + "/tmsjpeg/" + sub;
  }

  /** No occurrence of `pat` starts in `root` or at the separator after it, when `pat` holds no separator. */
  lemma NoneBeforeComponent(root: string, rest: string, pat: string, sep: char)
    requires |pat| > 0 && sep !in pat
    requires forall i :: !OccursAt(root, pat, i)
    ensures forall i :: 0 <= i < |root| + 1 ==> !OccursAt(root + [sep] + rest, pat, i)
  {
    var s := root + [sep] + rest;
    forall i | 0 <= i < |root| + 1
      ensures !OccursAt(s, pat, i)
    {
      if i + |pat| <= |root| {
        assert s[i..i + |pat|] == root[i..i + |pat|];
        assert !OccursAt(root, pat, i);
      } else if i + |pat| <= |s| {
        assert s[i..i + |pat|][|root| - i] == sep;
      }
    }
  }

  /** `pat` never occurs in a separator followed by `sub`, when it holds no separator and never occurs in `sub`. */
  lemma NoneAfterComponent(sub: string, pat: string, sep: char)
    requires |pat| > 0 && sep !in pat
    requires forall i :: !OccursAt(sub, pat, i)
    ensures forall i :: !OccursAt([sep] + sub, pat, i)
  {
    var tail := [sep] + sub;
    forall i | 0 <= i && i + |pat| <= |tail|
      ensures !OccursAt(tail, pat, i)
    {
      if i == 0 {
        assert tail[i..i + |pat|][0] == sep;
      } else {
        assert tail[i..i + |pat|] == sub[i - 1..i - 1 + |pat|];
        assert !OccursAt(sub, pat, i - 1);
      }
    }
  }

  /** Only the occurrence right after `a` is replaced when none starts in `a` and none occurs in `tail`. */
  lemma ReplaceOnlyOccurrence(a: string, tail: string, pat: string, rep: string)
    requires |pat| > 0
    requires forall i :: 0 <= i < |a| ==> !OccursAt(a + (pat + tail), pat, i)
    requires forall i :: !OccursAt(tail, pat, i)
    ensures ReplaceAll(a + (pat + tail), pat, rep) == a + (rep + tail)
  {
    ReplaceAllSkips(a, pat + tail, pat, rep);
    ReplaceAllAtFront(tail, pat, rep);
    ReplaceAllNoMatch(tail, pat, rep);
  }

  /** Replacing a whole path component between two separators, when nothing else matches. */
  lemma ReplaceComponent(root: string, sub: string, pat: string, rep: string, sep: char)
    requires |pat| > 0 && sep !in pat
    requires forall i :: !OccursAt(root, pat, i)
    requires forall i :: !OccursAt(sub, pat, i)
    ensures ReplaceAll(root + [sep] + pat + [sep] + sub, pat, rep) == root + [sep] + rep + [sep] + sub
  {
    var a := root + [sep];
    var tail := [sep] + sub;
    assert root + [sep] + pat + [sep] + sub == a + (pat + tail);
    assert root + [sep] + rep + [sep] + sub == a + (rep + tail);
    NoneBeforeComponent(root, pat + tail, pat, sep);
    NoneAfterComponent(sub, pat, sep);
    ReplaceOnlyOccurrence(a, tail, pat, rep);
  }

  /** The fixed options of the `mogrify` command: JPEG at quality 80, into the directory that follows. */
  const ConvertOptions: seq<string> := ["magick", "mogrify", "-format", "jpg", "-quality", "80", "-path"]

  /** The `mogrify` command line for one directory. */
  function ConvertCommand(dir: string): (cmd: seq<Arg>)
    ensures |cmd| == |ConvertOptions| + 2
    ensures forall i :: 0 <= i < |cmd| ==> cmd[i].Lit?
    ensures cmd[|cmd| - 2] == Lit(MirrorDir(dir))
  {
    var words := ConvertOptions + [MirrorDir(dir), PathJoin(dir, "*.png")];
    assert |words| == |ConvertOptions| + 2 && words[|words| - 2] == MirrorDir(dir);
    Lits(words)
  }

  /** The command line of literal words followed by two more is theirs, then those two. */
  lemma LitsThenTwo(words: seq<string>, u: string, v: string)
    ensures Lits(words + [u, v]) == Lits(words) + [Lit(u), Lit(v)]
  {
    var all := words + [u, v];
    var lhs, rhs := Lits(all), Lits(words) + [Lit(u), Lit(v)];
    assert |lhs| == |rhs|;
    forall k | 0 <= k < |lhs|
      ensures lhs[k] == rhs[k]
    {
      if k < |words| {
        assert all[k] == words[k];
      } else if k == |words| {
        assert all[k] == u;
      } else {
        assert all[k] == v;
      }
    }
  }

  /** A command line of fixed options, then two more words. */
  lemma CommandShape(opts: seq<string>, out: string, src: string)
    ensures var cmd := Lits(opts + [out, src]);
      && |cmd| == |opts| + 2
      && cmd[..|opts|] == Lits(opts)
      && cmd[|opts|] == Lit(out) && cmd[|opts| + 1] == Lit(src)
  {
    LitsThenTwo(opts, out, src);
    var cmd := Lits(opts) + [Lit(out), Lit(src)];
    assert cmd[..|opts|] == Lits(opts);
  }

  /** The glob pattern joined to `dir` names the PNG files directly inside `dir`. */
  lemma PngPattern(dir: string)
    ensures var png := PathJoin(dir, "*.png");
      Basename(png) == "*.png" && |dir| <= |png| && png[..|dir|] == dir
  {
    assert '/' !in "*.png";
    BasenameOfJoin(dir, "*.png");
  }

  /**
   * The command converts to JPEG at quality 80, writes into the mirror
   * directory, and reads the PNG files directly inside `dir`.
   */
  lemma ConvertCommandShape(dir: string)
    ensures var cmd := ConvertCommand(dir);
      var png := cmd[|ConvertOptions| + 1].text;
      && |cmd| == |ConvertOptions| + 2
      && cmd[..|ConvertOptions|] == Lits(ConvertOptions)
      && cmd[|ConvertOptions|] == Lit(MirrorDir(dir))
      && cmd[|ConvertOptions| + 1].Lit? && Basename(png) == "*.png"
      && |dir| <= |png| && png[..|dir|] == dir
  {
    CommandShape(ConvertOptions, MirrorDir(dir), PathJoin(dir, "*.png"));
    PngPattern(dir);
  }
}
