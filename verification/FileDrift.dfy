/** Comparing two dictionaries of hashed files: the list of removed, added and changed paths. */
module FileDrift {

  datatype Drift<V> = Removed(path: string, reference: V) | Added(path: string, actual: V) | Changed(path: string, reference: V, actual: V)

  /** Does the entry say the truth about its path? */
  ghost predicate Truthful<V>(d: Drift<V>, reference: map<string, V>, actual: map<string, V>) {
    match d
    case Removed(p, v) => p in reference && p !in actual && v == reference[p]
    case Added(p, v) => p !in reference && p in actual && v == actual[p]
    case Changed(p, v, w) => p in reference && p in actual && v == reference[p] && w == actual[p] && v != w
  }

  ghost predicate Differ<V>(reference: map<string, V>, actual: map<string, V>, p: string) {
    (p in reference || p in actual) && !(p in reference && p in actual && reference[p] == actual[p])
  }

  function Paths<V>(drifts: seq<Drift<V>>): set<string> {
    set i | 0 <= i < |drifts| :: drifts[i].path
  }

  /** Truthful entries only, one per path, and one for every path on which the two sides differ. */
  ghost predicate IsDiff<V>(drifts: seq<Drift<V>>, reference: map<string, V>, actual: map<string, V>) {
    && (forall i :: 0 <= i < |drifts| ==> Truthful(drifts[i], reference, actual))
    && (forall i, j :: 0 <= i < j < |drifts| ==> drifts[i].path != drifts[j].path)
    && (forall p :: Differ(reference, actual, p) ==> p in Paths(drifts))
  }

  /** One entry per path drawn from a set of paths on which the sides differ. */
  ghost predicate IsDiffOn<V>(drifts: seq<Drift<V>>, reference: map<string, V>, actual: map<string, V>, covered: set<string>) {
    && (forall i :: 0 <= i < |drifts| ==> Truthful(drifts[i], reference, actual))
    && (forall i, j :: 0 <= i < j < |drifts| ==> drifts[i].path != drifts[j].path)
    && Paths(drifts) <= covered
    && (forall p :: p in covered && Differ(reference, actual, p) ==> p in Paths(drifts))
  }

  lemma DiffOnStep<V>(drifts: seq<Drift<V>>, reference: map<string, V>, actual: map<string, V>, covered: set<string>, d: Drift<V>)
    requires IsDiffOn(drifts, reference, actual, covered) && Truthful(d, reference, actual) && d.path !in covered
    ensures IsDiffOn(drifts + [d], reference, actual, covered + {d.path})
  {
    var longer := drifts + [d];
    assert longer[|drifts|] == d;
    assert Paths(longer) == Paths(drifts) + {d.path} by {
      forall p | p in Paths(drifts) ensures p in Paths(longer) {
        var i :| 0 <= i < |drifts| && drifts[i].path == p;
        assert longer[i].path == p;
      }
    }
    forall i | 0 <= i < |drifts| ensures drifts[i].path != d.path {
      assert drifts[i].path in Paths(drifts);
    }
  }

  lemma DiffOnSkip<V>(drifts: seq<Drift<V>>, reference: map<string, V>, actual: map<string, V>, covered: set<string>, p: string)
    requires IsDiffOn(drifts, reference, actual, covered) && !Differ(reference, actual, p)
    ensures IsDiffOn(drifts, reference, actual, covered + {p})
  {
  }

  /** Three passes: paths that are gone, paths that are new, paths on both sides with different contents. */
  method FileDrifts<V(==)>(reference: map<string, V>, actual: map<string, V>) returns (drifts: seq<Drift<V>>)
    ensures IsDiff(drifts, reference, actual)
  {
    drifts := [];
    ghost var covered: set<string> := {};
    var gone := reference.Keys - actual.Keys;
    while gone != {}
      invariant gone <= reference.Keys - actual.Keys && covered == (reference.Keys - actual.Keys) - gone
      invariant IsDiffOn(drifts, reference, actual, covered)
    {
      var p :| p in gone;
      DiffOnStep(drifts, reference, actual, covered, Removed(p, reference[p]));
      drifts := drifts + [Removed(p, reference[p])];
      gone, covered := gone - {p}, covered + {p};
    }
    var arrived := actual.Keys - reference.Keys;
    while arrived != {}
      invariant arrived <= actual.Keys - reference.Keys
      invariant covered == (reference.Keys - actual.Keys) + ((actual.Keys - reference.Keys) - arrived)
      invariant IsDiffOn(drifts, reference, actual, covered)
    {
      var p :| p in arrived;
      DiffOnStep(drifts, reference, actual, covered, Added(p, actual[p]));
      drifts := drifts + [Added(p, actual[p])];
      arrived, covered := arrived - {p}, covered + {p};
    }
    drifts, covered := ChangedDrifts(drifts, reference, actual, covered);
    CoveredAll(drifts, reference, actual, covered);
  }

  method ChangedDrifts<V(==)>(before: seq<Drift<V>>, reference: map<string, V>, actual: map<string, V>, ghost start: set<string>)
    returns (drifts: seq<Drift<V>>, ghost covered: set<string>)
    requires IsDiffOn(before, reference, actual, start) && start !! (reference.Keys * actual.Keys)
    ensures IsDiffOn(drifts, reference, actual, covered) && covered == start + (reference.Keys * actual.Keys)
  {
    drifts, covered := before, start;
    var both := reference.Keys * actual.Keys;
    while both != {}
      invariant both <= reference.Keys * actual.Keys && covered == start + ((reference.Keys * actual.Keys) - both)
      invariant IsDiffOn(drifts, reference, actual, covered)
    {
      var p :| p in both;
      if reference[p] != actual[p] {
        DiffOnStep(drifts, reference, actual, covered, Changed(p, reference[p], actual[p]));
        drifts := drifts + [Changed(p, reference[p], actual[p])];
      } else {
        DiffOnSkip(drifts, reference, actual, covered, p);
      }
      both, covered := both - {p}, covered + {p};
    }
  }

  lemma CoveredAll<V>(drifts: seq<Drift<V>>, reference: map<string, V>, actual: map<string, V>, covered: set<string>)
    requires IsDiffOn(drifts, reference, actual, covered) && covered == reference.Keys + actual.Keys
    ensures IsDiff(drifts, reference, actual)
  {
  }

  // ---------------------------------------------------------------- what a diff is good for

  function ApplyDrift<V>(m: map<string, V>, d: Drift<V>): map<string, V> {
    match d
    case Removed(p, _) => m - {p}
    case Added(p, v) => m[p := v]
    case Changed(p, _, v) => m[p := v]
  }

  function ApplyDrifts<V>(m: map<string, V>, drifts: seq<Drift<V>>): map<string, V> {
    if |drifts| == 0 then m else ApplyDrift(ApplyDrifts(m, drifts[..|drifts| - 1]), drifts[|drifts| - 1])
  }

  /** After some entries of a truthful, repetition-free list: their paths are as in actual, the rest as before. */
  lemma {:induction false} ApplyPrefix<V>(reference: map<string, V>, actual: map<string, V>, drifts: seq<Drift<V>>, p: string)
    requires forall i :: 0 <= i < |drifts| ==> Truthful(drifts[i], reference, actual)
    requires forall i, j :: 0 <= i < j < |drifts| ==> drifts[i].path != drifts[j].path
    ensures var m := ApplyDrifts(reference, drifts);
      if p in Paths(drifts) then (p in m <==> p in actual) && (p in m ==> m[p] == actual[p])
      else (p in m <==> p in reference) && (p in m ==> m[p] == reference[p])
  {
    if |drifts| > 0 {
      var n := |drifts| - 1;
      ApplyPrefix(reference, actual, drifts[..n], p);
      if p in Paths(drifts) && drifts[n].path != p {
        var i :| 0 <= i < |drifts| && drifts[i].path == p;
        assert drifts[..n][i].path == p;
      }
      if p in Paths(drifts[..n]) {
        var i :| 0 <= i < n && drifts[..n][i].path == p;
        assert drifts[i].path == p && drifts[n].path != p;
      }
      assert drifts[n].path in Paths(drifts);
    }
  }

  /** Applying the list to the reference gives the actual dictionary. */
  lemma DiffApplies<V>(drifts: seq<Drift<V>>, reference: map<string, V>, actual: map<string, V>)
    requires IsDiff(drifts, reference, actual)
    ensures ApplyDrifts(reference, drifts) == actual
  {
    var m := ApplyDrifts(reference, drifts);
    forall p ensures (p in m <==> p in actual) && (p in m ==> m[p] == actual[p]) {
      ApplyPrefix(reference, actual, drifts, p);
      if p !in Paths(drifts) {
        assert !Differ(reference, actual, p);
      }
    }
    assert m.Keys == actual.Keys;
  }

  /** The list is empty exactly when nothing differs. */
  lemma EmptyDiffIffEqual<V>(drifts: seq<Drift<V>>, reference: map<string, V>, actual: map<string, V>)
    requires IsDiff(drifts, reference, actual)
    ensures drifts == [] <==> reference == actual
  {
    if drifts == [] {
      DiffApplies(drifts, reference, actual);
    } else {
      assert Truthful(drifts[0], reference, actual);
    }
  }

  function Mirror<V>(d: Drift<V>): Drift<V> {
    match d
    case Removed(p, v) => Added(p, v)
    case Added(p, v) => Removed(p, v)
    case Changed(p, v, w) => Changed(p, w, v)
  }

  function MirrorAll<V>(drifts: seq<Drift<V>>): seq<Drift<V>> {
    seq(|drifts|, i requires 0 <= i < |drifts| => Mirror(drifts[i]))
  }

  /** Swapping the sides mirrors the list, so the mirrored list leads back. */
  lemma MirroredDiff<V>(drifts: seq<Drift<V>>, reference: map<string, V>, actual: map<string, V>)
    requires IsDiff(drifts, reference, actual)
    ensures IsDiff(MirrorAll(drifts), actual, reference)
    ensures ApplyDrifts(ApplyDrifts(reference, drifts), MirrorAll(drifts)) == reference
  {
    var mirrored := MirrorAll(drifts);
    forall i | 0 <= i < |drifts| ensures mirrored[i].path == drifts[i].path && Truthful(mirrored[i], actual, reference) {
      assert Truthful(drifts[i], reference, actual);
    }
    forall p | Differ(actual, reference, p) ensures p in Paths(mirrored) {
      assert Differ(reference, actual, p);
      var i :| 0 <= i < |drifts| && drifts[i].path == p;
      assert mirrored[i].path == p;
    }
    DiffApplies(drifts, reference, actual);
    DiffApplies(mirrored, actual, reference);
  }

  /** A diff is determined up to order: every entry of one is an entry of the other. */
  lemma DiffIsUnique<V>(a: seq<Drift<V>>, b: seq<Drift<V>>, reference: map<string, V>, actual: map<string, V>)
    requires IsDiff(a, reference, actual) && IsDiff(b, reference, actual)
    ensures forall i :: 0 <= i < |a| ==> a[i] in b
  {
    forall i | 0 <= i < |a| ensures a[i] in b {
      assert Truthful(a[i], reference, actual);
      assert Differ(reference, actual, a[i].path);
      var j :| 0 <= j < |b| && b[j].path == a[i].path;
      assert Truthful(b[j], reference, actual);
      assert b[j] == a[i];
    }
  }
}
