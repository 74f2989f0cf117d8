/**
 * A sequence of independent items, each run on the files the items before it
 * left, where one item raising does not stop the next: how the downloader's
 * `try` inside its loop behaves. `Pool.map` runs each chunk of its items this
 * way up to the first raise (module `Pool`).
 */
module Sweeps {
  import opened Host

  /** What a phase leaves: the paths that exist, the actions done, how each item ended. */
  datatype Sweep = Sweep(files: set<string>, done: seq<Action>, outcomes: seq<Outcome>)

  /** Every item runs, on the files the items before it left. */
  function SweepUnits<U>(fs: set<string>, units: seq<U>, run: (set<string>, U) -> Effect): (s: Sweep)
    ensures |s.outcomes| == |units|
    decreases |units|
  {
    if units == [] then Sweep(fs, [], [])
    else
      var e := run(fs, units[0]);
      var rest := SweepUnits(e.files, units[1..], run);
      Sweep(rest.files, e.done + rest.done, [e.outcome] + rest.outcomes)
  }

  lemma Extends<T>(before: seq<T>, after: seq<T>)
    requires |before| <= |after| && after[..|before|] == before
    ensures after == before + after[|before|..]
  {
  }

  /** The sweep from item `i` on is item `i`, then the sweep from the next item on. */
  lemma SweepCons<U>(fs: set<string>, units: seq<U>, i: nat, run: (set<string>, U) -> Effect)
    requires i < |units|
    ensures var e := run(fs, units[i]);
      var rest := SweepUnits(e.files, units[i + 1..], run);
      SweepUnits(fs, units[i..], run) == Sweep(rest.files, e.done + rest.done, [e.outcome] + rest.outcomes)
  {
    assert units[i..][0] == units[i] && units[i..][1..] == units[i + 1..];
  }

  lemma KeepInvariant(start: seq<Action>, whole: Sweep, log: seq<Action>, outcomes: seq<Outcome>,
                      cur: Sweep, e: Effect, rest: Sweep)
    requires whole.files == cur.files && start + whole.done == log + cur.done
    requires whole.outcomes == outcomes + cur.outcomes
    requires cur == Sweep(rest.files, e.done + rest.done, [e.outcome] + rest.outcomes)
    ensures whole.files == rest.files && start + whole.done == (log + e.done) + rest.done
    ensures whole.outcomes == (outcomes + [e.outcome]) + rest.outcomes
  {
  }

  lemma Regroup<T>(a: seq<T>, b: seq<T>, c: seq<T>)
    ensures (a + b) + c == a + (b + c)
  {
  }

  /** Two items: the second runs on what the first left. */
  lemma SweepTwo<U>(fs: set<string>, a: U, b: U, run: (set<string>, U) -> Effect, e1: Effect, e2: Effect)
    requires run(fs, a) == e1 && run(e1.files, b) == e2
    ensures SweepUnits(fs, [a, b], run) == Sweep(e2.files, e1.done + e2.done, [e1.outcome, e2.outcome])
  {
    assert [a, b][1..] == [b];
    assert [b][1..] == [];
    assert e2.done + [] == e2.done;
    assert SweepUnits(e1.files, [b], run) == Sweep(e2.files, e2.done, [e2.outcome]);
  }

  /** An item that completes and then, run again on what it made, skips. */
  lemma RepeatedUnit<U>(fs: set<string>, u: U, run: (set<string>, U) -> Effect, made: set<string>, acts: seq<Action>)
    requires run(fs, u) == Effect(Completed, made, acts) && run(made, u) == Effect(Skipped, made, [])
    ensures SweepUnits(fs, [u, u], run) == Sweep(made, acts, [Completed, Skipped])
  {
    SweepTwo(fs, u, u, run, Effect(Completed, made, acts), Effect(Skipped, made, []));
    assert acts + [] == acts;
  }

  /** Running a list of items in two parts is running the first part, then the second on what it left. */
  lemma {:induction false} SweepAppend<U>(fs: set<string>, u: seq<U>, v: seq<U>, run: (set<string>, U) -> Effect)
    ensures var a := SweepUnits(fs, u, run);
      var b := SweepUnits(a.files, v, run);
      SweepUnits(fs, u + v, run) == Sweep(b.files, a.done + b.done, a.outcomes + b.outcomes)
    decreases |u|
  {
    if u == [] {
      assert u + v == v;
    } else {
      assert (u + v)[0] == u[0] && (u + v)[1..] == u[1..] + v;
      SweepAppend(run(fs, u[0]).files, u[1..], v, run);
    }
  }

  /** The files that exist when item `i` starts. */
  function FilesBefore<U>(fs: set<string>, units: seq<U>, run: (set<string>, U) -> Effect, i: nat): set<string>
    requires i <= |units|
  {
    SweepUnits(fs, units[..i], run).files
  }

  /**
   * Every item runs, and item `i` ends as it would alone on the files the
   * items before it left: a later item is not cut short by an earlier one raising.
   */
  lemma SweepOutcome<U>(fs: set<string>, units: seq<U>, run: (set<string>, U) -> Effect, i: nat)
    requires i < |units|
    ensures SweepUnits(fs, units, run).outcomes[i] == run(FilesBefore(fs, units, run, i), units[i]).outcome
  {
    assert units == units[..i] + units[i..];
    SweepAppend(fs, units[..i], units[i..], run);
    assert units[i..][0] == units[i];
  }

  /** A phase raises exactly when one of its items raised, whatever came after it. */
  lemma SweepRaises<U>(fs: set<string>, units: seq<U>, run: (set<string>, U) -> Effect)
    ensures Raised in SweepUnits(fs, units, run).outcomes
      <==> exists i :: 0 <= i < |units| && run(FilesBefore(fs, units, run, i), units[i]).outcome == Raised
  {
    var s := SweepUnits(fs, units, run);
    forall i | 0 <= i < |units|
      ensures s.outcomes[i] == run(FilesBefore(fs, units, run, i), units[i]).outcome
    {
      SweepOutcome(fs, units, run, i);
    }
  }

  /** A sweep whose every item leaves the files alone and does not complete changes nothing, though every item is visited. */
  lemma {:induction false} SweepNoChange<U>(fs: set<string>, units: seq<U>, run: (set<string>, U) -> Effect)
    requires forall u :: u in units ==> run(fs, u).files == fs && run(fs, u).done == [] && run(fs, u).outcome != Completed
    ensures var s := SweepUnits(fs, units, run);
      s.files == fs && s.done == [] && Completed !in s.outcomes && |s.outcomes| == |units|
    decreases |units|
  {
    if units != [] {
      assert units[0] in units;
      forall u | u in units[1..]
        ensures u in units
      {
      }
      SweepNoChange(fs, units[1..], run);
    }
  }

  /** A phase in which every item leaves the files alone and skips changes nothing and raises nothing. */
  lemma {:induction false} SweepAllSkip<U>(fs: set<string>, units: seq<U>, run: (set<string>, U) -> Effect)
    requires forall i :: 0 <= i < |units| ==> run(fs, units[i]) == Effect(Skipped, fs, [])
    ensures var s := SweepUnits(fs, units, run);
      s.files == fs && s.done == [] && forall i :: 0 <= i < |units| ==> s.outcomes[i] == Skipped
    decreases |units|
  {
    if units != [] {
      forall i | 0 <= i < |units[1..]|
        ensures run(fs, units[1..][i]) == Effect(Skipped, fs, [])
      {
        assert units[1..][i] == units[i + 1];
      }
      SweepAllSkip(fs, units[1..], run);
      assert run(fs, units[0]) == Effect(Skipped, fs, []);
    }
  }

}
