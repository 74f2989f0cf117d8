/**
 * `multiprocessing.Pool.map` as `create_dem.py` uses it. The items are cut
 * into chunks of `ceil(n / (4 * workers))` consecutive items; a worker runs
 * a chunk item after item and abandons the rest of the chunk when an item
 * raises; every chunk is run, and the first exception is re-raised once all
 * chunks are done. Workers are taken to run the chunks one after the other,
 * in list order.
 */
module Pool {
  import opened Host
  import opened Sweeps

  /** The items of the chunks, in order. */
  function Concat<U>(cs: seq<seq<U>>): seq<U>
    decreases |cs|
  {
    if cs == [] then [] else cs[0] + Concat(cs[1..])
  }

  /**
   * The chunk length `Pool.map` picks for `n` items and `workers` processes:
   * `n / (4 * workers)`, rounded up.
   */
  function ChunkSize(n: nat, workers: nat): (c: nat)
    requires workers > 0
    ensures n == 0 ==> c == 0
    ensures n > 0 ==> 0 < c && n <= c * (4 * workers) < n + 4 * workers
  {
    var d := 4 * workers;
    var q := n / d;
    assert n == q * d + n % d;
    if n == 0 then 0
    else if n % d == 0 then q
    else q + 1
  }

  /** Up to four items per worker, every chunk holds one item. */
  lemma SmallPhaseSingles(n: nat, workers: nat)
    requires workers > 0 && 0 < n <= 4 * workers
    ensures ChunkSize(n, workers) == 1
  {
    var c, d := ChunkSize(n, workers), 4 * workers;
    if c >= 2 {
      assert false;
    }
  }

  /** Beyond four items per worker, a chunk holds more than one item. */
  lemma LargePhaseChunks(n: nat, workers: nat)
    requires workers > 0 && n > 4 * workers
    ensures ChunkSize(n, workers) >= 2
  {
    var c, d := ChunkSize(n, workers), 4 * workers;
    if c <= 1 {
      assert false;
    }
  }

  /** `units` cut into consecutive chunks of `size` items; only the last may be shorter. */
  function Chunks<U>(units: seq<U>, size: nat): (cs: seq<seq<U>>)
    requires size > 0
    ensures Concat(cs) == units
    ensures forall k :: 0 <= k < |cs| ==> 0 < |cs[k]| <= size
    ensures forall k :: 0 <= k < |cs| - 1 ==> |cs[k]| == size
    decreases |units|
  {
    if units == [] then []
    else if |units| <= size then
      assert Concat([units]) == units + Concat([units][1..]);
      [units]
    else
      var rest := Chunks(units[size..], size);
      var cs := [units[..size]] + rest;
      assert cs[1..] == rest;
      assert units == units[..size] + units[size..];
      assert forall k :: 1 <= k < |cs| ==> cs[k] == rest[k - 1];
      cs
  }

  /**
   * One chunk run by a worker: the items run in order, each on the files the
   * one before it left, until one raises; the items after it do not run.
   */
  function RunChunk<U>(fs: set<string>, chunk: seq<U>, run: (set<string>, U) -> Effect): (s: Sweep)
    ensures |s.outcomes| <= |chunk|
    ensures forall k :: 0 <= k < |s.outcomes| - 1 ==> s.outcomes[k] != Raised
    ensures |s.outcomes| < |chunk| ==> s.outcomes != [] && s.outcomes[|s.outcomes| - 1] == Raised
    decreases |chunk|
  {
    if chunk == [] then Sweep(fs, [], [])
    else
      var e := run(fs, chunk[0]);
      if e.outcome == Raised then Sweep(e.files, e.done, [Raised])
      else
        var rest := RunChunk(e.files, chunk[1..], run);
        var s := Sweep(rest.files, e.done + rest.done, [e.outcome] + rest.outcomes);
        assert forall k :: 1 <= k < |s.outcomes| ==> s.outcomes[k] == rest.outcomes[k - 1];
        s
  }

  /** One step of a worker: the first item either raises and ends the chunk, or the rest follows. */
  lemma RunChunkStep<U>(fs: set<string>, chunk: seq<U>, run: (set<string>, U) -> Effect)
    requires chunk != []
    ensures var e := run(fs, chunk[0]);
      e.outcome == Raised ==> RunChunk(fs, chunk, run) == Sweep(e.files, e.done, [Raised])
    ensures var e := run(fs, chunk[0]); var rest := RunChunk(e.files, chunk[1..], run);
      e.outcome != Raised ==> RunChunk(fs, chunk, run) == Sweep(rest.files, e.done + rest.done, [e.outcome] + rest.outcomes)
  {
  }

  /**
   * The worker loop's invariant across item `i`: the chunk's sweep `whole`
   * is what the items before `i` did (`done`, `outcomes`) followed by the
   * sweep from item `i` on, and item `i` ended as `Effect(o, files, d)`.
   */
  lemma WorkerStep<U>(whole: Sweep, done: seq<Action>, outcomes: seq<Outcome>, fs: set<string>,
                      chunk: seq<U>, i: nat, run: (set<string>, U) -> Effect,
                      o: Outcome, files: set<string>, d: seq<Action>)
    requires i < |chunk|
    requires var cur := RunChunk(fs, chunk[i..], run);
      whole == Sweep(cur.files, done + cur.done, outcomes + cur.outcomes)
    requires run(fs, chunk[i]) == Effect(o, files, d)
    ensures o == Raised ==> whole == Sweep(files, done + d, outcomes + [o])
    ensures var next := RunChunk(files, chunk[i + 1..], run);
      o != Raised ==> whole == Sweep(next.files, (done + d) + next.done, (outcomes + [o]) + next.outcomes)
  {
    var rest := chunk[i..];
    assert rest[0] == chunk[i] && rest[1..] == chunk[i + 1..];
    RunChunkStep(fs, rest, run);
    if o != Raised {
      var next := RunChunk(files, chunk[i + 1..], run);
      Regroup(done, d, next.done);
      Regroup(outcomes, [o], next.outcomes);
    }
  }

  /** Every chunk runs, on the files the chunks before it left. */
  function SweepChunks<U>(fs: set<string>, cs: seq<seq<U>>, run: (set<string>, U) -> Effect): (s: Sweep)
    ensures |s.outcomes| <= |Concat(cs)|
    ensures |s.outcomes| < |Concat(cs)| ==> Raised in s.outcomes
    decreases |cs|
  {
    if cs == [] then Sweep(fs, [], [])
    else
      var a := RunChunk(fs, cs[0], run);
      var b := SweepChunks(a.files, cs[1..], run);
      var s := Sweep(b.files, a.done + b.done, a.outcomes + b.outcomes);
      assert |a.outcomes| < |cs[0]| ==> a.outcomes[|a.outcomes| - 1] == s.outcomes[|a.outcomes| - 1];
      assert Raised in b.outcomes ==> Raised in s.outcomes by {
        if Raised in b.outcomes {
          var k :| 0 <= k < |b.outcomes| && b.outcomes[k] == Raised;
          assert s.outcomes[|a.outcomes| + k] == Raised;
        }
      }
      s
  }

  /** `Pool(workers).map(f, units)`: the outcomes of the items that ran, in order. */
  function PoolMap<U>(fs: set<string>, units: seq<U>, run: (set<string>, U) -> Effect, workers: nat): (s: Sweep)
    requires workers > 0
    ensures |s.outcomes| <= |units|
    ensures |s.outcomes| < |units| ==> Raised in s.outcomes
  {
    if units == [] then Sweep(fs, [], [])
    else SweepChunks(fs, Chunks(units, ChunkSize(|units|, workers)), run)
  }

  // ---------------------------------------------------------------- one chunk

  /** A chunk runs a prefix of its items exactly as they would run one after another. */
  lemma {:induction false} ChunkRunsPrefix<U>(fs: set<string>, chunk: seq<U>, run: (set<string>, U) -> Effect)
    ensures var s := RunChunk(fs, chunk, run);
      s == SweepUnits(fs, chunk[..|s.outcomes|], run)
    decreases |chunk|
  {
    if chunk != [] {
      var e := run(fs, chunk[0]);
      var s := RunChunk(fs, chunk, run);
      if e.outcome == Raised {
        assert chunk[..1][1..] == [];
        assert e.done + [] == e.done;
      } else {
        var rest := RunChunk(e.files, chunk[1..], run);
        ChunkRunsPrefix(e.files, chunk[1..], run);
        var p := chunk[..|s.outcomes|];
        assert p[0] == chunk[0] && p[1..] == chunk[1..][..|rest.outcomes|];
      }
    }
  }

  /** A chunk none of whose items raises runs every item. */
  lemma {:induction false} ChunkWithoutRaise<U>(fs: set<string>, chunk: seq<U>, run: (set<string>, U) -> Effect)
    requires Raised !in SweepUnits(fs, chunk, run).outcomes
    ensures RunChunk(fs, chunk, run) == SweepUnits(fs, chunk, run)
    decreases |chunk|
  {
    if chunk != [] {
      var e := run(fs, chunk[0]);
      var all := SweepUnits(fs, chunk, run);
      assert all.outcomes[0] == e.outcome;
      var rest := SweepUnits(e.files, chunk[1..], run);
      assert rest.outcomes == all.outcomes[1..];
      ChunkWithoutRaise(e.files, chunk[1..], run);
    }
  }

  /** A chunk raises exactly when its items, run one after another, raise. */
  lemma {:induction false} ChunkRaises<U>(fs: set<string>, chunk: seq<U>, run: (set<string>, U) -> Effect)
    ensures Raised in RunChunk(fs, chunk, run).outcomes <==> Raised in SweepUnits(fs, chunk, run).outcomes
    decreases |chunk|
  {
    if chunk != [] {
      var e := run(fs, chunk[0]);
      var all := SweepUnits(fs, chunk, run);
      assert all.outcomes[0] == e.outcome;
      if e.outcome != Raised {
        var rest := SweepUnits(e.files, chunk[1..], run);
        var part := RunChunk(e.files, chunk[1..], run);
        ChunkRaises(e.files, chunk[1..], run);
        assert all.outcomes == [e.outcome] + rest.outcomes;
        assert RunChunk(fs, chunk, run).outcomes == [e.outcome] + part.outcomes;
      }
    }
  }

  // ---------------------------------------------------------------- all chunks

  lemma OutcomesApart(a: seq<Outcome>, b: seq<Outcome>)
    ensures Raised in a + b <==> Raised in a || Raised in b
  {
    if Raised in a + b {
      var k :| 0 <= k < |a + b| && (a + b)[k] == Raised;
      if k >= |a| {
        assert b[k - |a|] == Raised;
      }
    }
    if Raised in b {
      var k :| 0 <= k < |b| && b[k] == Raised;
      assert (a + b)[|a| + k] == Raised;
    }
  }

  /** Chunks none of whose items raises run as their items would, one after another. */
  lemma {:induction false} ChunksWithoutRaise<U>(fs: set<string>, cs: seq<seq<U>>, run: (set<string>, U) -> Effect)
    requires Raised !in SweepUnits(fs, Concat(cs), run).outcomes
    ensures SweepChunks(fs, cs, run) == SweepUnits(fs, Concat(cs), run)
    decreases |cs|
  {
    if cs != [] {
      var a := SweepUnits(fs, cs[0], run);
      var b := SweepUnits(a.files, Concat(cs[1..]), run);
      SweepAppend(fs, cs[0], Concat(cs[1..]), run);
      OutcomesApart(a.outcomes, b.outcomes);
      ChunkWithoutRaise(fs, cs[0], run);
      ChunksWithoutRaise(a.files, cs[1..], run);
    }
  }

  /** The chunks raise exactly when their items, run one after another, raise. */
  lemma {:induction false} ChunksRaise<U>(fs: set<string>, cs: seq<seq<U>>, run: (set<string>, U) -> Effect)
    ensures Raised in SweepChunks(fs, cs, run).outcomes <==> Raised in SweepUnits(fs, Concat(cs), run).outcomes
    decreases |cs|
  {
    if cs != [] {
      var a := SweepUnits(fs, cs[0], run);
      var a' := RunChunk(fs, cs[0], run);
      var b := SweepUnits(a.files, Concat(cs[1..]), run);
      var b' := SweepChunks(a'.files, cs[1..], run);
      SweepAppend(fs, cs[0], Concat(cs[1..]), run);
      OutcomesApart(a.outcomes, b.outcomes);
      OutcomesApart(a'.outcomes, b'.outcomes);
      ChunkRaises(fs, cs[0], run);
      if Raised !in a.outcomes {
        ChunkWithoutRaise(fs, cs[0], run);
        ChunksRaise(a.files, cs[1..], run);
      }
    }
  }

  /** A chunk of one item runs that item. */
  lemma ChunkOfOne<U>(fs: set<string>, u: U, run: (set<string>, U) -> Effect)
    ensures var e := run(fs, u);
      RunChunk(fs, [u], run) == SweepUnits(fs, [u], run) == Sweep(e.files, e.done, [e.outcome])
  {
    var e := run(fs, u);
    assert [u][1..] == [];
    assert e.done + [] == e.done;
  }

  /** Chunks of one item each run every item, one after another. */
  lemma {:induction false} SingleChunks<U>(fs: set<string>, units: seq<U>, run: (set<string>, U) -> Effect)
    ensures SweepChunks(fs, Chunks(units, 1), run) == SweepUnits(fs, units, run)
    decreases |units|
  {
    if units != [] {
      var cs := Chunks(units, 1);
      var e := run(fs, units[0]);
      var first := [units[0]];
      ChunkOfOne(fs, units[0], run);
      if |units| == 1 {
        assert units == first;
        assert cs == [units];
        assert cs[1..] == [];
        assert e.done + [] == e.done && [e.outcome] + [] == [e.outcome];
      } else {
        assert units[..1] == first;
        assert cs == [first] + Chunks(units[1..], 1);
        assert cs[1..] == Chunks(units[1..], 1);
        SingleChunks(e.files, units[1..], run);
      }
    }
  }

  // ---------------------------------------------------------------- the pool

  /** When no item raises, the pool runs every item, as a plain loop would. */
  lemma PoolWithoutRaise<U>(fs: set<string>, units: seq<U>, run: (set<string>, U) -> Effect, workers: nat)
    requires workers > 0
    requires Raised !in SweepUnits(fs, units, run).outcomes
    ensures PoolMap(fs, units, run, workers) == SweepUnits(fs, units, run)
  {
    if units != [] {
      ChunksWithoutRaise(fs, Chunks(units, ChunkSize(|units|, workers)), run);
    }
  }

  /**
   * `Pool.map` raises exactly when the items, run one after another, raise:
   * up to the first raising item the pool and a plain loop do the same.
   */
  lemma PoolRaises<U>(fs: set<string>, units: seq<U>, run: (set<string>, U) -> Effect, workers: nat)
    requires workers > 0
    ensures Raised in PoolMap(fs, units, run, workers).outcomes <==> Raised in SweepUnits(fs, units, run).outcomes
  {
    if units != [] {
      ChunksRaise(fs, Chunks(units, ChunkSize(|units|, workers)), run);
    }
  }

  /** A phase of at most four items per worker runs every item, even after one raised. */
  lemma SmallPoolRunsAll<U>(fs: set<string>, units: seq<U>, run: (set<string>, U) -> Effect, workers: nat)
    requires workers > 0 && |units| <= 4 * workers
    ensures PoolMap(fs, units, run, workers) == SweepUnits(fs, units, run)
  {
    if units != [] {
      SmallPhaseSingles(|units|, workers);
      SingleChunks(fs, units, run);
    }
  }

  /**
   * In a phase of more than four items per worker, a first item that raises
   * takes the rest of its chunk with it: the second item never runs, and
   * fewer items end than were given.
   */
  lemma PoolAbandonsChunk<U>(fs: set<string>, units: seq<U>, run: (set<string>, U) -> Effect, workers: nat)
    requires workers > 0 && |units| > 4 * workers
    requires run(fs, units[0]).outcome == Raised
    ensures var s := PoolMap(fs, units, run, workers);
      0 < |s.outcomes| < |units| && s.outcomes[0] == Raised
  {
    var size := ChunkSize(|units|, workers);
    LargePhaseChunks(|units|, workers);
    var cs := Chunks(units, size);
    assert Concat(cs) == cs[0] + Concat(cs[1..]);
    assert cs[0][0] == units[0];
    var a := RunChunk(fs, cs[0], run);
    assert a.outcomes == [Raised];
  }
}
