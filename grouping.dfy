/** `itertools.groupby(s, key=f)`: the sequence cut into maximal runs of
    adjacent elements with equal keys. Equal keys that are not adjacent land
    in different runs; nothing is sorted or merged. */
module Grouping {

  /** Concatenation of the runs, in order. */
  function Flatten<T>(runs: seq<seq<T>>): seq<T>
  {
    if runs == [] then [] else runs[0] + Flatten(runs[1..])
  }

  /** `runs` is the cut of `s` into maximal runs of equal `f`-keys: together
      they give `s` back, none is empty, every run has one key, and two
      adjacent runs have different keys. */
  ghost predicate IsRunPartition<T, K>(s: seq<T>, f: T -> K, runs: seq<seq<T>>)
  {
    && Flatten(runs) == s
    && (forall i :: 0 <= i < |runs| ==> runs[i] != [])
    && (forall i, j :: 0 <= i < |runs| && 0 <= j < |runs[i]| ==> f(runs[i][j]) == f(runs[i][0]))
    && (forall i :: 0 <= i < |runs| - 1 ==> f(runs[i][0]) != f(runs[i + 1][0]))
  }

  /** `groupby` itself: no run is empty and the first run starts with the
      first element. */
  function GroupRuns<T, K(==)>(s: seq<T>, f: T -> K): (runs: seq<seq<T>>)
    ensures forall i :: 0 <= i < |runs| ==> runs[i] != []
    ensures s != [] ==> runs != [] && runs[0][0] == s[0]
    decreases |s|
  {
    if s == [] then []
    else
      var rest := GroupRuns(s[1..], f);
      if rest != [] && f(rest[0][0]) == f(s[0]) then [[s[0]] + rest[0]] + rest[1..]
      else [[s[0]]] + rest
  }

  /** An element with the key of the first run joins that run. */
  lemma JoinFirstRun<T, K>(x: T, s: seq<T>, f: T -> K, runs: seq<seq<T>>)
    requires IsRunPartition(s, f, runs) && runs != [] && f(runs[0][0]) == f(x)
    ensures IsRunPartition([x] + s, f, [[x] + runs[0]] + runs[1..])
  {
    var runs' := [[x] + runs[0]] + runs[1..];
    assert Flatten(runs) == runs[0] + Flatten(runs[1..]);
    assert runs'[1..] == runs[1..];
    assert Flatten(runs') == [x] + runs[0] + Flatten(runs[1..]);
    assert forall i :: 1 <= i < |runs'| ==> runs'[i] == runs[i];
  }

  /** An element with another key than the first run starts a run of its
      own. */
  lemma StartRun<T, K>(x: T, s: seq<T>, f: T -> K, runs: seq<seq<T>>)
    requires IsRunPartition(s, f, runs) && (runs != [] ==> f(runs[0][0]) != f(x))
    ensures IsRunPartition([x] + s, f, [[x]] + runs)
  {
    var runs' := [[x]] + runs;
    assert runs'[1..] == runs;
    assert forall i :: 1 <= i < |runs'| ==> runs'[i] == runs[i - 1];
  }

  /** GroupRuns cuts `s` into a run partition. */
  lemma {:induction false} GroupRunsPartition<T, K>(s: seq<T>, f: T -> K)
    ensures IsRunPartition(s, f, GroupRuns(s, f))
    decreases |s|
  {
    if s != [] {
      var rest := GroupRuns(s[1..], f);
      GroupRunsPartition(s[1..], f);
      assert [s[0]] + s[1..] == s;
      if rest != [] && f(rest[0][0]) == f(s[0]) {
        JoinFirstRun(s[0], s[1..], f, rest);
      } else {
        StartRun(s[0], s[1..], f, rest);
      }
    }
  }

  /** Taking away a first run of one element leaves a run partition of
      the rest, whose first key differs from that element's. */
  lemma DropFirstRun<T, K>(s: seq<T>, f: T -> K, runs: seq<seq<T>>)
    requires IsRunPartition(s, f, runs) && runs != [] && |runs[0]| == 1
    ensures s != [] && runs[0] == [s[0]]
    ensures IsRunPartition(s[1..], f, runs[1..])
    ensures |runs| > 1 ==> f(runs[1][0]) != f(s[0])
  {
    assert Flatten(runs) == runs[0] + Flatten(runs[1..]);
    var tail := runs[1..];
    assert forall i :: 0 <= i < |tail| ==> tail[i] == runs[i + 1];
  }

  /** Taking the first element out of a longer first run leaves a run
      partition of the rest, starting with an element of the same key. */
  lemma ShrinkFirstRun<T, K>(s: seq<T>, f: T -> K, runs: seq<seq<T>>)
    requires IsRunPartition(s, f, runs) && runs != [] && |runs[0]| > 1
    ensures s != [] && runs[0] == [s[0]] + runs[0][1..]
    ensures IsRunPartition(s[1..], f, [runs[0][1..]] + runs[1..])
    ensures f(runs[0][1]) == f(s[0])
  {
    var r0 := runs[0];
    assert Flatten(runs) == r0 + Flatten(runs[1..]);
    var tail := [r0[1..]] + runs[1..];
    assert Flatten(tail) == r0[1..] + Flatten(runs[1..]);
    assert forall i :: 1 <= i < |tail| ==> tail[i] == runs[i];
    assert forall j :: 0 <= j < |tail[0]| ==> tail[0][j] == r0[j + 1];
  }

  /** GroupRuns is the only run partition: the four properties above pin
      the result of `groupby` down completely. */
  lemma {:induction false} GroupRunsUnique<T, K>(s: seq<T>, f: T -> K, runs: seq<seq<T>>)
    requires IsRunPartition(s, f, runs)
    ensures runs == GroupRuns(s, f)
    decreases |s|
  {
    if runs == [] {
      assert s == [];
    } else if |runs[0]| == 1 {
      DropFirstRun(s, f, runs);
      GroupRunsUnique(s[1..], f, runs[1..]);
      assert [runs[0]] + runs[1..] == runs;
    } else {
      ShrinkFirstRun(s, f, runs);
      var tail := [runs[0][1..]] + runs[1..];
      GroupRunsUnique(s[1..], f, tail);
      assert [[s[0]] + tail[0]] + tail[1..] == runs;
    }
  }

  lemma {:induction false} FlattenAppend<T>(a: seq<seq<T>>, b: seq<seq<T>>)
    ensures Flatten(a + b) == Flatten(a) + Flatten(b)
    decreases |a|
  {
    if a == [] {
      assert a + b == b;
    } else {
      assert (a + b)[0] == a[0] && (a + b)[1..] == a[1..] + b;
      FlattenAppend(a[1..], b);
    }
  }
}
