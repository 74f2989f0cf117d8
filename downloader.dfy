/**
 * `downloader.py`: one pass over the lines of the tile manifest. Each line
 * is trimmed to a URL; the tile is fetched with `wget` into `tiles/` unless
 * the file named after the URL's last segment is already there. An exception
 * on one line is printed and the loop goes on with the next.
 *
 * The manifest's lines are a parameter. Whether `wget` can be started is the
 * parameter `wgetFound`; whether it writes the tile is the `Tool` oracle.
 */
module Downloader {
  import opened Wrappers
  import opened Text
  import opened Paths
  import opened Host
  import opened Sweeps

  /** Where downloaded tiles go: `tiles` beside the script. */
  function TilesDir(here: string): string {
    PathJoin(here, "tiles")
  }

  /** The path checked for a URL: its text after the last `/`, in the tiles directory. */
  function Destination(here: string, url: string): (d: string)
    ensures TilesDir(here) < d
  {
    PathJoin(TilesDir(here), LastSegment(url, '/'))
  }

  function WgetArgs(url: string): seq<Arg> {
    Lits(["wget", "-q", url, "-P", "tiles"])
  }

  /** `os.path.exists`: false for a path holding a NUL character, which no file can have. */
  predicate Exists(fs: set<string>, p: string) {
    p in fs && '\0' !in p
  }

  /**
   * `subprocess.run` raises before starting anything when the program is
   * missing or an argument holds a NUL character.
   */
  predicate LaunchFails(url: string, wgetFound: bool) {
    !wgetFound || '\0' in url
  }

  /** One manifest line: skipped when its file exists, failed when `wget` cannot start, fetched otherwise. */
  function LineEffect(fs: set<string>, here: string, line: string, tool: Tool, wgetFound: bool): (e: Effect)
    ensures e.outcome == Skipped <==> Exists(fs, Destination(here, Strip(line)))
    ensures e.outcome == Raised <==> !Exists(fs, Destination(here, Strip(line))) && LaunchFails(Strip(line), wgetFound)
    ensures e.outcome != Completed ==> e.files == fs && e.done == []
    ensures fs <= e.files <= fs + {Destination(here, Strip(line))}
  {
    var url := Strip(line);
    var dest := Destination(here, url);
    if Exists(fs, dest) then Effect(Skipped, fs, [])
    else if LaunchFails(url, wgetFound) then Effect(Raised, fs, [])
    else
      var fetch := Run(WgetArgs(url), [], dest);
      Effect(Completed, Step(fs, fetch, tool).value, [fetch])
  }

  function LineRunner(here: string, tool: Tool, wgetFound: bool): (set<string>, string) -> Effect {
    (fs: set<string>, line: string) => LineEffect(fs, here, line, tool, wgetFound)
  }

  /** The body of the loop, inside its `try`. */
  method FetchLine(m: Machine, here: string, line: string, tool: Tool, wgetFound: bool)
    returns (outcome: Outcome)
    modifies m
    ensures |old(m.log)| <= |m.log| && m.log[..|old(m.log)|] == old(m.log)
    ensures Effect(outcome, m.files, m.log[|old(m.log)|..]) == LineRunner(here, tool, wgetFound)(old(m.files), line)
  {
    var url := Strip(line);
    var dest := Destination(here, url);
    ghost var fs0, log0 := m.files, m.log;
    ghost var e := LineEffect(fs0, here, line, tool, wgetFound);
    assert LineRunner(here, tool, wgetFound)(fs0, line) == e;
    if Exists(m.files, dest) {
      assert e == Effect(Skipped, fs0, []);
      assert m.log[|log0|..] == [];
      return Skipped;
    }
    if LaunchFails(url, wgetFound) {
      assert e == Effect(Raised, fs0, []);
      assert m.log[|log0|..] == [];
      return Raised;
    }
    var fetch := Run(WgetArgs(url), [], dest);
    assert e == Effect(Completed, Step(fs0, fetch, tool).value, [fetch]);
    var ok := m.Execute(fetch, tool);
    assert m.log[|log0|..] == [fetch];
    outcome := Completed;
  }

  /** The loop over the manifest: every line is handled, whatever happened to the ones before it. */
  method Download(m: Machine, here: string, lines: seq<string>, tool: Tool, wgetFound: bool)
    returns (outcomes: seq<Outcome>)
    modifies m
    ensures var s := SweepUnits(old(m.files), lines, LineRunner(here, tool, wgetFound));
      m.files == s.files && m.log == old(m.log) + s.done && outcomes == s.outcomes
  {
    ghost var run := LineRunner(here, tool, wgetFound);
    ghost var whole := SweepUnits(m.files, lines, run);
    outcomes := [];
    var i := 0;
    while i < |lines|
      invariant 0 <= i <= |lines|
      invariant var rest := SweepUnits(m.files, lines[i..], run);
        whole.files == rest.files && old(m.log) + whole.done == m.log + rest.done
        && whole.outcomes == outcomes + rest.outcomes
    {
      ghost var before, fsb := m.log, m.files;
      ghost var cur := SweepUnits(fsb, lines[i..], run);
      var o := FetchLine(m, here, lines[i], tool, wgetFound);
      ghost var e := run(fsb, lines[i]);
      Extends(before, m.log);
      SweepCons(fsb, lines, i, run);
      KeepInvariant(old(m.log), whole, before, outcomes, cur, e, SweepUnits(m.files, lines[i + 1..], run));
      outcomes := outcomes + [o];
      i := i + 1;
    }
    assert lines[i..] == [];
  }

  // ---------------------------------------------------------------- properties

  /**
   * The destination's file name is the URL's last segment: it holds no `/`,
   * ends the URL, is the whole URL when the URL has no `/`, and lies directly
   * in the tiles directory.
   */
  lemma DestinationShape(here: string, url: string)
    ensures var name := Basename(Destination(here, url));
      && name == LastSegment(url, '/')
      && '/' !in name
      && |name| <= |url| && url[|url| - |name|..] == name
      && ('/' !in url ==> name == url)
      && (name != [] ==> Dirname(Destination(here, url)) == TilesDir(here))
  {
    var name := LastSegment(url, '/');
    BasenameOfJoin(TilesDir(here), name);
    var dir := TilesDir(here);
    assert dir[|dir| - 5..] == "tiles";
    assert dir[|dir| - 1] == 's';
    if name != [] {
      DirnameOfJoin(dir, name);
    }
  }

  /** A manifest line is its URL followed by the newline, which trimming removes. */
  lemma TrimLine(url: string)
    requires url != [] && !IsSpace(url[0]) && !IsSpace(url[|url| - 1])
    ensures Strip(url + "\n") == url
  {
    var s := url + "\n";
    var span := StripSpan(StrBlanks, s);
    assert IsSpace(s[|url|]);
    assert !IsSpace(s[0]);
    assert !IsSpace(s[|url| - 1]);
    assert span.0 == 0;
    assert span.1 == |url|;
  }

  /** A blank line names the tiles directory itself, with a trailing `/`. */
  lemma BlankLine(here: string, line: string)
    requires forall i :: 0 <= i < |line| ==> IsSpace(line[i])
    ensures Destination(here, Strip(line)) == TilesDir(here) + "/"
  {
    var span := StripSpan(StrBlanks, line);
    assert Strip(line) == [];
    assert LastSegment([], '/') == [];
    var dir := TilesDir(here);
    assert dir[|dir| - 1] == 's';
  }

  /**
   * Every line is handled, and line `i` is fetched exactly when its file did
   * not exist after the lines before it and `wget` could start, skipped
   * exactly when its file existed.
   */
  lemma DownloadOutcome(fs: set<string>, here: string, lines: seq<string>, tool: Tool, wgetFound: bool, i: nat)
    requires i < |lines|
    ensures var run := LineRunner(here, tool, wgetFound);
      var before := FilesBefore(fs, lines, run, i);
      var url := Strip(lines[i]);
      var o := SweepUnits(fs, lines, run).outcomes[i];
      && (o == Completed <==> !Exists(before, Destination(here, url)) && !LaunchFails(url, wgetFound))
      && (o == Skipped <==> Exists(before, Destination(here, url)))
  {
    var run := LineRunner(here, tool, wgetFound);
    SweepOutcome(fs, lines, run, i);
    var e := LineEffect(FilesBefore(fs, lines, run, i), here, lines[i], tool, wgetFound);
  }

  /** The paths the lines of a manifest name. */
  function Destinations(here: string, lines: seq<string>): set<string> {
    set line | line in lines :: Destination(here, Strip(line))
  }

  /** The loop only adds files, and only at the destinations its lines name. */
  lemma {:induction false} DownloadFrame(fs: set<string>, here: string, lines: seq<string>, tool: Tool, wgetFound: bool)
    ensures var s := SweepUnits(fs, lines, LineRunner(here, tool, wgetFound));
      fs <= s.files <= fs + Destinations(here, lines)
    decreases |lines|
  {
    if lines != [] {
      var e := LineEffect(fs, here, lines[0], tool, wgetFound);
      DownloadFrame(e.files, here, lines[1..], tool, wgetFound);
      assert lines[0] in lines;
      forall p | p in Destinations(here, lines[1..])
        ensures p in Destinations(here, lines)
      {
        var line :| line in lines[1..] && p == Destination(here, Strip(line));
        assert line in lines;
      }
    }
  }

  /** Without `wget` every line fails, nothing changes, and yet every line is visited. */
  lemma NoWget(fs: set<string>, here: string, lines: seq<string>, tool: Tool)
    ensures var s := SweepUnits(fs, lines, LineRunner(here, tool, false));
      s.files == fs && s.done == [] && Completed !in s.outcomes && |s.outcomes| == |lines|
  {
    var run := LineRunner(here, tool, false);
    forall line | line in lines
      ensures run(fs, line).files == fs && run(fs, line).done == [] && run(fs, line).outcome != Completed
    {
      var e := LineEffect(fs, here, line, tool, false);
    }
    SweepNoChange(fs, lines, run);
  }

  /** A line whose file is missing, when `wget` starts and succeeds, creates its file. */
  lemma LineFetches(fs: set<string>, here: string, line: string, tool: Tool)
    requires !Exists(fs, Destination(here, Strip(line))) && !LaunchFails(Strip(line), true)
    requires tool(WgetArgs(Strip(line)))
    ensures var url := Strip(line); var dest := Destination(here, url);
      LineRunner(here, tool, true)(fs, line) == Effect(Completed, fs + {dest}, [Run(WgetArgs(url), [], dest)])
  {
    var url := Strip(line);
    var dest := Destination(here, url);
    var fetch := Run(WgetArgs(url), [], dest);
    assert AllExist(fs, []);
    assert Produces(fs, WgetArgs(url), [], tool);
    assert Step(fs, fetch, tool) == Some(fs + {dest});
    assert LineEffect(fs, here, line, tool, true) == Effect(Completed, fs + {dest}, [fetch]);
  }

  /** A line whose file exists is skipped and changes nothing. */
  lemma LineSkips(fs: set<string>, here: string, line: string, tool: Tool, wgetFound: bool)
    requires Exists(fs, Destination(here, Strip(line)))
    ensures LineRunner(here, tool, wgetFound)(fs, line) == Effect(Skipped, fs, [])
  {
  }

  /** A line listed twice is fetched once: by the second time its file exists. */
  lemma RepeatedLine(fs: set<string>, here: string, line: string, tool: Tool)
    requires !Exists(fs, Destination(here, Strip(line))) && '\0' !in Strip(line)
    requires '\0' !in Destination(here, Strip(line))
    requires tool(WgetArgs(Strip(line)))
    ensures var url := Strip(line);
      var s := SweepUnits(fs, [line, line], LineRunner(here, tool, true));
      s.outcomes == [Completed, Skipped]
      && s.done == [Run(WgetArgs(url), [], Destination(here, url))]
      && s.files == fs + {Destination(here, Strip(line))}
  {
    var url := Strip(line);
    var dest := Destination(here, url);
    var fetch := Run(WgetArgs(url), [], dest);
    LineFetches(fs, here, line, tool);
    LineSkips(fs + {dest}, here, line, tool, true);
    RepeatedUnit(fs, line, LineRunner(here, tool, true), fs + {dest}, [fetch]);
  }
}
