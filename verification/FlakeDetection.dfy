/**
 Flake detection over repeated control runs: every repeat of a control is compared with repeat 0, and the
 verdict also takes in the idempotency calibrations of the public checks.
 */
module FlakeDetection {
  import opened Wrappers
  import opened FileDrift
  import opened EvalPlan
  import ArtifactRefs
  import Decimal

  type Hashes = map<string, string>

  datatype Layer = ScorerLayer | AgentLayer

  /** One control run once, with the normalised hashes of the files that lie in its directory once all have run. */
  datatype Record = Record(layer: Layer, taskId: string, controlName: string, repeatIndex: nat, artifactDir: ArtifactRefs.PurePath,
                           hashes: Hashes, matched: bool)

  datatype Group = Group(
    taskId: string, controlName: string, drifted: bool, driftedRepeats: seq<nat>,
    files: Hashes, details: map<string, seq<Drift<string>>>)

  // ---------------------------------------------------------------- sorting repeats

  predicate Ascending(records: seq<Record>) {
    forall i, j :: 0 <= i < j < |records| ==> records[i].repeatIndex <= records[j].repeatIndex
  }

  /** sorted(records, key=repeat_index): stable insertion. */
  method SortByRepeat(records: seq<Record>) returns (sorted: seq<Record>)
    ensures Ascending(sorted) && multiset(sorted) == multiset(records)
  {
    sorted := [];
    for i := 0 to |records|
      invariant Ascending(sorted) && multiset(sorted) == multiset(records[..i])
    {
      sorted := Insert(sorted, records[i]);
      assert records[..i + 1] == records[..i] + [records[i]];
    }
    assert records[..|records|] == records;
  }

  method Insert(sorted: seq<Record>, r: Record) returns (longer: seq<Record>)
    requires Ascending(sorted)
    ensures Ascending(longer) && multiset(longer) == multiset(sorted) + multiset{r}
  {
    var k: nat := |sorted|;
    while k > 0 && sorted[k - 1].repeatIndex > r.repeatIndex
      invariant k <= |sorted|
      invariant forall i :: k <= i < |sorted| ==> sorted[i].repeatIndex > r.repeatIndex
    {
      k := k - 1;
    }
    longer := sorted[..k] + [r] + sorted[k..];
    InsertedInOrder(sorted, r, k);
  }

  lemma InsertedInOrder(sorted: seq<Record>, r: Record, k: nat)
    requires Ascending(sorted) && k <= |sorted|
    requires forall i :: k <= i < |sorted| ==> sorted[i].repeatIndex > r.repeatIndex
    requires k > 0 ==> sorted[k - 1].repeatIndex <= r.repeatIndex
    ensures var longer := sorted[..k] + [r] + sorted[k..];
      Ascending(longer) && multiset(longer) == multiset(sorted) + multiset{r}
  {
    assert sorted == sorted[..k] + sorted[k..];
    AscendingAround(sorted[..k], r, sorted[k..]);
  }

  lemma AscendingAround(a: seq<Record>, r: Record, b: seq<Record>)
    requires Ascending(a + b)
    requires forall i :: 0 <= i < |b| ==> b[i].repeatIndex > r.repeatIndex
    requires |a| > 0 ==> a[|a| - 1].repeatIndex <= r.repeatIndex
    ensures Ascending(a + [r] + b)
  {
    var ab, longer := a + b, a + [r] + b;
    forall i | 0 <= i < |a| ensures a[i].repeatIndex <= r.repeatIndex {
      assert ab[i] == a[i] && ab[|a| - 1] == a[|a| - 1];
    }
    forall i, j | 0 <= i < j < |longer| ensures longer[i].repeatIndex <= longer[j].repeatIndex {
      var x, y := if i < |a| then i else i - 1, if j < |a| then j else j - 1;
      if i != |a| && j != |a| {
        assert longer[i] == ab[x] && longer[j] == ab[y];
      }
    }
  }

  // ---------------------------------------------------------------- one group

  predicate Drifted(sorted: seq<Record>, i: nat)
    requires i < |sorted|
  {
    sorted[i].hashes != sorted[0].hashes
  }

  /** Repeat indexes of the records, from the second on, whose hashes differ from the first's. */
  function DriftedRepeats(sorted: seq<Record>, n: nat): seq<nat>
    requires n <= |sorted|
  {
    if n <= 1 then []
    else DriftedRepeats(sorted, n - 1) + (if Drifted(sorted, n - 1) then [sorted[n - 1].repeatIndex] else [])
  }

  function Keys(repeats: seq<nat>): set<string> {
    set i | 0 <= i < |repeats| :: Decimal.Render(repeats[i])
  }

  /** The recorded drift of one repeat is the exact difference between it and the reference. */
  ghost predicate DetailHolds(sorted: seq<Record>, key: string, drifts: seq<Drift<string>>)
    requires |sorted| > 0
  {
    && drifts != []
    && exists i :: 0 < i < |sorted| && Decimal.Render(sorted[i].repeatIndex) == key && IsDiff(drifts, sorted[0].hashes, sorted[i].hashes)
  }

  ghost predicate Detected(g: Group, sorted: seq<Record>)
    requires |sorted| > 0
  {
    && g.taskId == sorted[0].taskId && g.controlName == sorted[0].controlName
    && g.driftedRepeats == DriftedRepeats(sorted, |sorted|)
    && g.drifted == (g.driftedRepeats != [])
    && g.files == sorted[0].hashes
    && g.details.Keys == Keys(g.driftedRepeats)
    && forall key :: key in g.details ==> DetailHolds(sorted, key, g.details[key])
  }

  lemma KeysSnoc(repeats: seq<nat>, r: nat)
    ensures Keys(repeats + [r]) == Keys(repeats) + {Decimal.Render(r)}
  {
    var longer := repeats + [r];
    assert longer[|repeats|] == r;
    forall key | key in Keys(repeats) ensures key in Keys(longer) {
      var i :| 0 <= i < |repeats| && Decimal.Render(repeats[i]) == key;
      assert longer[i] == repeats[i];
    }
  }

  /** _control_artifact_flake_detection_group; None when there are no records or the reference is not repeat 0. */
  method DetectGroup(records: seq<Record>) returns (r: Option<Group>, sorted: seq<Record>)
    ensures Ascending(sorted) && multiset(sorted) == multiset(records)
    ensures r.Some? <==> |sorted| > 0 && sorted[0].repeatIndex == 0
    ensures r.Some? ==> Detected(r.value, sorted)
  {
    sorted := SortByRepeat(records);
    if |sorted| == 0 || sorted[0].repeatIndex != 0 {
      return None, sorted;
    }
    var reference := sorted[0];
    var driftedRepeats: seq<nat>, details: map<string, seq<Drift<string>>> := [], map[];
    for i := 1 to |sorted|
      invariant driftedRepeats == DriftedRepeats(sorted, i)
      invariant details.Keys == Keys(driftedRepeats)
      invariant forall key :: key in details ==> DetailHolds(sorted, key, details[key])
    {
      var drifts := FileDrifts(reference.hashes, sorted[i].hashes);
      EmptyDiffIffEqual(drifts, reference.hashes, sorted[i].hashes);
      if drifts != [] {
        KeysSnoc(driftedRepeats, sorted[i].repeatIndex);
        driftedRepeats := driftedRepeats + [sorted[i].repeatIndex];
        details := details[Decimal.Render(sorted[i].repeatIndex) := drifts];
      }
    }
    r := Some(Group(reference.taskId, reference.controlName, driftedRepeats != [], driftedRepeats, reference.hashes, details));
  }

  /** ControlFlakeDetectionGroup, its reference being repeat 0 by construction. */
  predicate ValidGroup(g: Group) {
    && g.details.Keys == Keys(g.driftedRepeats)
    && 0 !in g.driftedRepeats
    && (g.drifted <==> g.driftedRepeats != [])
    && g.files != map[]
    && forall key :: key in g.details ==> g.details[key] != []
  }

  lemma {:induction false} InDriftedRepeats(sorted: seq<Record>, n: nat, r: nat)
    requires n <= |sorted|
    ensures r in DriftedRepeats(sorted, n) <==> exists i :: 0 < i < n && Drifted(sorted, i) && sorted[i].repeatIndex == r
  {
    if n > 1 {
      InDriftedRepeats(sorted, n - 1, r);
      if r in DriftedRepeats(sorted, n) && r !in DriftedRepeats(sorted, n - 1) {
        assert Drifted(sorted, n - 1) && sorted[n - 1].repeatIndex == r;
      }
    }
  }

  /** Evidence is valid exactly when repeat 0 left files to compare and no second record of repeat 0 drifted. */
  lemma DetectedIsValidIff(g: Group, sorted: seq<Record>)
    requires |sorted| > 0 && Detected(g, sorted)
    ensures ValidGroup(g) <==>
      sorted[0].hashes != map[] && forall i :: 0 < i < |sorted| && sorted[i].repeatIndex == 0 ==> !Drifted(sorted, i)
  {
    InDriftedRepeats(sorted, |sorted|, 0);
    forall key | key in g.details ensures g.details[key] != [] {
      assert DetailHolds(sorted, key, g.details[key]);
    }
  }

  /** A group is free of drift exactly when all its repeats agree pairwise. */
  lemma NoDriftIffAllEqual(g: Group, sorted: seq<Record>)
    requires |sorted| > 0 && Detected(g, sorted)
    ensures !g.drifted <==> forall i, j :: 0 <= i < |sorted| && 0 <= j < |sorted| ==> sorted[i].hashes == sorted[j].hashes
  {
    if g.drifted {
      var r := g.driftedRepeats[0];
      InDriftedRepeats(sorted, |sorted|, r);
    } else {
      forall i | 0 <= i < |sorted| ensures sorted[i].hashes == sorted[0].hashes {
        if i > 0 && Drifted(sorted, i) {
          InDriftedRepeats(sorted, |sorted|, sorted[i].repeatIndex);
        }
      }
    }
  }

  // ---------------------------------------------------------------- public-check calibrations

  datatype CheckRun =
    | Completed(workspaceBefore: string, workspaceAfter: string, resultHash: string)
    | Failed(workspaceBefore: string, workspaceAfter: string)

  datatype CheckStatus = Idempotent | NonIdempotent | Inconclusive
  datatype Reason = WorkspaceStateDrift | NormalizedResultDrift

  datatype Calibration = Calibration(taskId: string, taskManifestHash: string, publicCheckIndex: nat, status: CheckStatus,
                                     reasons: seq<Reason>, runs: seq<CheckRun>)

  function WorkspaceHashes(runs: seq<CheckRun>): set<string> {
    (set i | 0 <= i < |runs| :: runs[i].workspaceBefore) + (set i | 0 <= i < |runs| :: runs[i].workspaceAfter)
  }

  function ResultHashes(runs: seq<CheckRun>): set<string> {
    set i | 0 <= i < |runs| && runs[i].Completed? :: runs[i].resultHash
  }

  /** derive_non_idempotency_reasons. */
  function Reasons(runs: seq<CheckRun>): seq<Reason> {
    (if |WorkspaceHashes(runs)| > 1 then [WorkspaceStateDrift] else [])
    + (if |ResultHashes(runs)| > 1 then [NormalizedResultDrift] else [])
  }

  /** derive_public_check_idempotency_status. */
  function DerivedStatus(runs: seq<CheckRun>): CheckStatus {
    if Reasons(runs) != [] then NonIdempotent
    else if exists i :: 0 <= i < |runs| && runs[i].Failed? then Inconclusive
    else Idempotent
  }

  predicate ValidCalibration(c: Calibration) {
    |c.runs| >= 2 && c.reasons == Reasons(c.runs) && c.status == DerivedStatus(c.runs)
  }

  /** All runs saw and left one workspace, completed, and gave one result. */
  predicate OneOutcome(runs: seq<CheckRun>) {
    && (forall i, j :: 0 <= i < |runs| && 0 <= j < |runs| ==> runs[i].workspaceBefore == runs[j].workspaceAfter)
    && (forall i :: 0 <= i < |runs| ==> runs[i].Completed?)
    && (forall i, j :: 0 <= i < |runs| && 0 <= j < |runs| ==> runs[i].Completed? && runs[j].Completed? ==> runs[i].resultHash == runs[j].resultHash)
  }

  lemma SmallSet<T>(s: set<T>, x: T, y: T)
    requires |s| <= 1 && x in s && y in s
    ensures x == y
  {
    assert |s - {x}| == |s| - 1;
    assert y !in s - {x};
  }

  lemma AllSame<T>(s: set<T>, x: T)
    requires forall y :: y in s ==> y == x
    ensures |s| <= 1
  {
    assert s == {} || s == {x};
  }

  lemma IdempotentIffOneOutcome(runs: seq<CheckRun>)
    requires |runs| >= 2
    ensures DerivedStatus(runs) == Idempotent <==> OneOutcome(runs)
  {
    if DerivedStatus(runs) == Idempotent {
      forall i, j | 0 <= i < |runs| && 0 <= j < |runs|
        ensures runs[i].workspaceBefore == runs[j].workspaceAfter
        ensures runs[i].Completed? && runs[j].Completed? ==> runs[i].resultHash == runs[j].resultHash
      {
        SmallSet(WorkspaceHashes(runs), runs[i].workspaceBefore, runs[j].workspaceAfter);
        if runs[i].Completed? && runs[j].Completed? {
          SmallSet(ResultHashes(runs), runs[i].resultHash, runs[j].resultHash);
        }
      }
    } else if OneOutcome(runs) {
      AllSame(WorkspaceHashes(runs), runs[0].workspaceBefore);
      AllSame(ResultHashes(runs), runs[0].resultHash);
      assert false;
    }
  }

  // ---------------------------------------------------------------- the verdict

  datatype FlakeStatus = Stable | Unstable | Unknown

  datatype Flake = Flake(status: FlakeStatus, repeats: nat, groupsChecked: nat, driftedGroups: nat,
                         scorer: seq<Group>, agent: seq<Group>, calibrations: seq<Calibration>)

  function CountDrifted(groups: seq<Group>): nat {
    if |groups| == 0 then 0 else CountDrifted(groups[..|groups| - 1]) + (if groups[|groups| - 1].drifted then 1 else 0)
  }

  function Statuses(cs: seq<Calibration>): set<CheckStatus> {
    set i | 0 <= i < |cs| :: cs[i].status
  }

  function VerdictOf(drifted: nat, repeats: nat, statuses: set<CheckStatus>): FlakeStatus {
    if drifted > 0 || NonIdempotent in statuses then Unstable
    else if repeats < 2 || Inconclusive in statuses then Unknown
    else Stable
  }

  // ---------------------------------------------------------------- grouping the records of a run

  type Key = (string, string)

  function KeyOf(r: Record): Key {
    (r.taskId, r.controlName)
  }

  function KeysOf(records: seq<Record>): set<Key> {
    set i | 0 <= i < |records| :: KeyOf(records[i])
  }

  function OfLayer(records: seq<Record>, layer: Layer): seq<Record> {
    if |records| == 0 then []
    else
      var last := records[|records| - 1];
      OfLayer(records[..|records| - 1], layer) + (if last.layer == layer then [last] else [])
  }

  /** _record_group. */
  function RecordGroup(records: seq<Record>, key: Key): seq<Record> {
    if |records| == 0 then []
    else
      var last := records[|records| - 1];
      RecordGroup(records[..|records| - 1], key) + (if KeyOf(last) == key then [last] else [])
  }

  lemma {:induction false} LayerHolds(records: seq<Record>, layer: Layer, r: Record)
    ensures r in OfLayer(records, layer) <==> r in records && r.layer == layer
  {
    if |records| > 0 {
      LayerHolds(records[..|records| - 1], layer, r);
      assert records == records[..|records| - 1] + [records[|records| - 1]];
    }
  }

  lemma {:induction false} GroupHolds(records: seq<Record>, key: Key, r: Record)
    ensures r in RecordGroup(records, key) <==> r in records && KeyOf(r) == key
  {
    if |records| > 0 {
      GroupHolds(records[..|records| - 1], key, r);
      assert records == records[..|records| - 1] + [records[|records| - 1]];
    }
  }

  lemma {:induction false} LayerIsUnique(records: seq<Record>, layer: Layer)
    requires Unique(records)
    ensures Unique(OfLayer(records, layer))
  {
    if |records| > 0 {
      var rest, last := records[..|records| - 1], records[|records| - 1];
      assert records == rest + [last];
      UniqueSnoc(rest, last);
      LayerIsUnique(rest, layer);
      LayerHolds(rest, layer, last);
      UniqueSnoc(OfLayer(rest, layer), last);
    }
  }

  lemma {:induction false} GroupIsUnique(records: seq<Record>, key: Key)
    requires Unique(records)
    ensures Unique(RecordGroup(records, key))
  {
    if |records| > 0 {
      var rest, last := records[..|records| - 1], records[|records| - 1];
      assert records == rest + [last];
      UniqueSnoc(rest, last);
      GroupIsUnique(rest, key);
      GroupHolds(rest, key, last);
      UniqueSnoc(RecordGroup(rest, key), last);
    }
  }

  /** _summary_keys: every task and control that was recorded, once. */
  method SummaryKeys(records: seq<Record>) returns (keys: seq<Key>)
    ensures Unique(keys) && Elements(keys) == KeysOf(records)
  {
    keys := [];
    for i := 0 to |records|
      invariant Unique(keys) && Elements(keys) == KeysOf(records[..i])
    {
      var key := KeyOf(records[i]);
      KeysSnocOf(records[..i], records[i]);
      assert records[..i + 1] == records[..i] + [records[i]];
      if key !in keys {
        UniqueSnoc(keys, key);
        keys := keys + [key];
      } else {
        assert key in Elements(keys);
      }
    }
    assert records[..|records|] == records;
  }

  lemma KeysSnocOf(records: seq<Record>, r: Record)
    ensures KeysOf(records + [r]) == KeysOf(records) + {KeyOf(r)}
  {
    var longer := records + [r];
    assert longer[|records|] == r;
    forall key | key in KeysOf(records) ensures key in KeysOf(longer) {
      var i :| 0 <= i < |records| && KeyOf(records[i]) == key;
      assert longer[i] == records[i];
    }
  }

  predicate SortedFrom(sorted: seq<Record>, group: seq<Record>) {
    |sorted| > 0 && Ascending(sorted) && multiset(sorted) == multiset(group)
  }

  /** The group is what comparing these records with their repeat 0 gives. */
  ghost predicate GroupFor(g: Group, group: seq<Record>) {
    exists sorted: seq<Record> :: SortedFrom(sorted, group) && sorted[0].repeatIndex == 0 && Detected(g, sorted)
  }

  function GroupKeys(groups: seq<Group>): seq<Key> {
    seq(|groups|, i requires 0 <= i < |groups| => (groups[i].taskId, groups[i].controlName))
  }

  /** One group for every task and control of the records, made from all records of it. */
  ghost predicate GroupsOf(groups: seq<Group>, records: seq<Record>) {
    && Unique(GroupKeys(groups)) && Elements(GroupKeys(groups)) == KeysOf(records)
    && forall i :: 0 <= i < |groups| ==> GroupFor(groups[i], RecordGroup(records, GroupKeys(groups)[i]))
  }

  /** Every task and control was run as repeat 0. */
  predicate HasReferences(records: seq<Record>) {
    forall i :: 0 <= i < |records| ==> HasReference(records, KeyOf(records[i]))
  }

  predicate HasReference(records: seq<Record>, key: Key) {
    exists i :: 0 <= i < |records| && KeyOf(records[i]) == key && records[i].repeatIndex == 0
  }

  lemma SameElements(sorted: seq<Record>, group: seq<Record>, r: Record)
    requires multiset(sorted) == multiset(group)
    ensures r in sorted <==> r in group
  {
    assert r in sorted <==> r in multiset(sorted);
    assert r in group <==> r in multiset(group);
  }

  lemma ReferenceComesFirst(records: seq<Record>, key: Key, sorted: seq<Record>)
    requires key in KeysOf(records) && Ascending(sorted) && multiset(sorted) == multiset(RecordGroup(records, key))
    ensures |sorted| > 0 && KeyOf(sorted[0]) == key
    ensures sorted[0].repeatIndex == 0 <==> HasReference(records, key)
  {
    var group := RecordGroup(records, key);
    var i :| 0 <= i < |records| && KeyOf(records[i]) == key;
    GroupHolds(records, key, records[i]);
    SameElements(sorted, group, records[i]);
    GroupHolds(records, key, sorted[0]);
    SameElements(sorted, group, sorted[0]);
    if HasReference(records, key) {
      var j :| 0 <= j < |records| && KeyOf(records[j]) == key && records[j].repeatIndex == 0;
      GroupHolds(records, key, records[j]);
      SameElements(sorted, group, records[j]);
      var k :| 0 <= k < |sorted| && sorted[k] == records[j];
      assert k == 0 || sorted[0].repeatIndex <= sorted[k].repeatIndex;
    }
    if sorted[0].repeatIndex == 0 {
      var j :| 0 <= j < |records| && records[j] == sorted[0];
    }
  }

  lemma GroupIsFor(g: Group, group: seq<Record>, sorted: seq<Record>)
    requires SortedFrom(sorted, group) && sorted[0].repeatIndex == 0 && Detected(g, sorted)
    ensures GroupFor(g, group) && (g.taskId, g.controlName) == KeyOf(sorted[0])
  {
  }

  /** One control's group; None when it has no repeat 0. */
  method DetectControl(records: seq<Record>, key: Key) returns (r: Option<Group>)
    requires key in KeysOf(records)
    ensures r.Some? <==> HasReference(records, key)
    ensures r.Some? ==> GroupFor(r.value, RecordGroup(records, key)) && (r.value.taskId, r.value.controlName) == key
  {
    ghost var sorted;
    r, sorted := DetectGroup(RecordGroup(records, key));
    ReferenceComesFirst(records, key, sorted);
    if r.Some? {
      GroupIsFor(r.value, RecordGroup(records, key), sorted);
    }
  }

  /** One layer's groups; None when some control has no repeat 0. */
  method DetectGroups(records: seq<Record>) returns (r: Option<seq<Group>>)
    ensures r.Some? <==> HasReferences(records)
    ensures r.Some? ==> GroupsOf(r.value, records)
  {
    var keys := SummaryKeys(records);
    var groups: seq<Group> := [];
    for i := 0 to |keys|
      invariant GroupsFor(groups, records, keys[..i])
      invariant AllReferenced(records, keys[..i])
    {
      assert keys[i] in Elements(keys);
      var group := DetectControl(records, keys[i]);
      if group.None? {
        KeyUnreferenced(records, keys[i]);
        return None;
      }
      GroupsForSnoc(groups, records, keys[..i], group.value, keys[i]);
      assert keys[..i + 1] == keys[..i] + [keys[i]];
      groups := groups + [group.value];
    }
    assert keys[..|keys|] == keys;
    EveryKeyReferenced(records, keys);
    r := Some(groups);
  }

  /** These groups, in order, for these keys. */
  ghost predicate GroupsFor(groups: seq<Group>, records: seq<Record>, keys: seq<Key>) {
    GroupKeys(groups) == keys && forall i :: 0 <= i < |groups| ==> GroupFor(groups[i], RecordGroup(records, GroupKeys(groups)[i]))
  }

  predicate AllReferenced(records: seq<Record>, keys: seq<Key>) {
    forall j :: 0 <= j < |keys| ==> HasReference(records, keys[j])
  }

  lemma GroupsForSnoc(groups: seq<Group>, records: seq<Record>, keys: seq<Key>, g: Group, key: Key)
    requires GroupsFor(groups, records, keys) && GroupFor(g, RecordGroup(records, key)) && (g.taskId, g.controlName) == key
    ensures GroupsFor(groups + [g], records, keys + [key])
  {
    var longer := groups + [g];
    assert GroupKeys(longer) == GroupKeys(groups) + [key];
    forall i | 0 <= i < |longer| ensures GroupFor(longer[i], RecordGroup(records, GroupKeys(longer)[i])) {
      if i < |groups| {
        assert longer[i] == groups[i] && GroupKeys(longer)[i] == GroupKeys(groups)[i];
      }
    }
  }

  lemma KeyUnreferenced(records: seq<Record>, key: Key)
    requires key in KeysOf(records) && !HasReference(records, key)
    ensures !HasReferences(records)
  {
    var j :| 0 <= j < |records| && KeyOf(records[j]) == key;
  }

  lemma EveryKeyReferenced(records: seq<Record>, keys: seq<Key>)
    requires Elements(keys) == KeysOf(records) && AllReferenced(records, keys)
    ensures HasReferences(records)
  {
    forall i | 0 <= i < |records| ensures HasReference(records, KeyOf(records[i])) {
      assert KeyOf(records[i]) in Elements(keys);
    }
  }

  ghost predicate BuiltFlake(f: Flake, repeats: nat, records: seq<Record>, calibrations: seq<Calibration>) {
    && GroupsOf(f.scorer, OfLayer(records, ScorerLayer)) && GroupsOf(f.agent, OfLayer(records, AgentLayer))
    && f == FlakeOf(repeats, CountDrifted(f.scorer + f.agent), f.scorer, f.agent, calibrations)
  }

  /** _build_flake_detection, up to its validation; None when some control has no repeat 0. */
  method BuildFlake(repeats: nat, records: seq<Record>, calibrations: seq<Calibration>) returns (f: Option<Flake>)
    ensures f.Some? <==> HasReferences(OfLayer(records, ScorerLayer)) && HasReferences(OfLayer(records, AgentLayer))
    ensures f.Some? ==> BuiltFlake(f.value, repeats, records, calibrations)
  {
    var scorer := DetectGroups(OfLayer(records, ScorerLayer));
    if scorer.None? {
      return None;
    }
    var agent := DetectGroups(OfLayer(records, AgentLayer));
    if agent.None? {
      return None;
    }
    var drifted := CountDriftedGroups(scorer.value + agent.value);
    f := Some(FlakeOf(repeats, drifted, scorer.value, agent.value, calibrations));
  }

  function FlakeOf(repeats: nat, drifted: nat, scorer: seq<Group>, agent: seq<Group>, calibrations: seq<Calibration>): Flake {
    Flake(VerdictOf(drifted, repeats, Statuses(calibrations)), repeats, |scorer| + |agent|, drifted, scorer, agent, calibrations)
  }

  method CountDriftedGroups(groups: seq<Group>) returns (drifted: nat)
    ensures drifted == CountDrifted(groups)
  {
    drifted := 0;
    for i := 0 to |groups|
      invariant drifted == CountDrifted(groups[..i])
    {
      assert groups[..i + 1][..i] == groups[..i];
      if groups[i].drifted {
        drifted := drifted + 1;
      }
    }
    assert groups[..|groups|] == groups;
  }

  // ---------------------------------------------------------------- what validates

  predicate DistinctChecks(cs: seq<Calibration>) {
    forall i, j :: 0 <= i < j < |cs| ==> (cs[i].taskManifestHash, cs[i].publicCheckIndex) != (cs[j].taskManifestHash, cs[j].publicCheckIndex)
  }

  predicate WithinRepeats(g: Group, repeats: nat) {
    forall i :: 0 <= i < |g.driftedRepeats| ==> g.driftedRepeats[i] < repeats
  }

  /** ControlFlakeDetection. */
  predicate ValidFlake(f: Flake) {
    var groups := f.scorer + f.agent;
    && f.repeats > 0
    && f.groupsChecked == |groups| && f.driftedGroups == CountDrifted(groups)
    && f.status == VerdictOf(CountDrifted(groups), f.repeats, Statuses(f.calibrations))
    && DistinctChecks(f.calibrations)
    && ValidGroups(groups, f.repeats)
  }

  predicate SameControl(r: Record, q: Record) {
    r.layer == q.layer && KeyOf(r) == KeyOf(q)
  }

  predicate SameRepeat(r: Record, q: Record) {
    SameControl(r, q) && r.repeatIndex == q.repeatIndex
  }

  /** What a finished control run leaves: each control's repeats once each, repeat 0 among them, and files in every one. */
  predicate ProperRecords(records: seq<Record>, repeats: nat) {
    && Unique(records)
    && (forall i :: 0 <= i < |records| ==> records[i].repeatIndex < repeats && records[i].hashes != map[])
    && (forall i, j :: 0 <= i < |records| && 0 <= j < |records| && SameRepeat(records[i], records[j]) ==> records[i] == records[j])
    && HasReferences(OfLayer(records, ScorerLayer)) && HasReferences(OfLayer(records, AgentLayer))
  }

  lemma UniqueElementsOnce(s: seq<Record>, r: Record)
    requires Unique(s)
    ensures multiset(s)[r] <= 1
  {
    if |s| > 0 {
      var rest, last := s[..|s| - 1], s[|s| - 1];
      assert s == rest + [last];
      UniqueSnoc(rest, last);
      UniqueElementsOnce(rest, r);
      assert multiset(s) == multiset(rest) + multiset{last};
    }
  }

  lemma TwiceIsTwo(s: seq<Record>, i: nat, j: nat)
    requires i < j < |s| && s[i] == s[j]
    ensures multiset(s)[s[i]] >= 2
  {
    var a, b := s[..j], s[j..];
    assert s == a + b && a[i] == s[i] && b[0] == s[j];
    assert multiset(s) == multiset(a) + multiset(b);
    assert s[i] in multiset(a) && s[i] in multiset(b);
  }

  lemma RearrangedIsUnique(sorted: seq<Record>, group: seq<Record>)
    requires Unique(group) && multiset(sorted) == multiset(group)
    ensures Unique(sorted)
  {
    forall i, j | 0 <= i < j < |sorted| ensures sorted[i] != sorted[j] {
      if sorted[i] == sorted[j] {
        TwiceIsTwo(sorted, i, j);
        UniqueElementsOnce(group, sorted[i]);
      }
    }
  }

  /** Members of a layer's group are records of that layer and control. */
  lemma SortedFromLayer(records: seq<Record>, layer: Layer, key: Key, sorted: seq<Record>, r: Record)
    requires SortedFrom(sorted, RecordGroup(OfLayer(records, layer), key))
    ensures r in sorted <==> r in records && r.layer == layer && KeyOf(r) == key
  {
    SameElements(sorted, RecordGroup(OfLayer(records, layer), key), r);
    GroupHolds(OfLayer(records, layer), key, r);
    LayerHolds(records, layer, r);
  }

  lemma ProperGroupIsValid(records: seq<Record>, repeats: nat, layer: Layer, g: Group, key: Key)
    requires ProperRecords(records, repeats) && GroupFor(g, RecordGroup(OfLayer(records, layer), key))
    ensures ValidGroup(g) && WithinRepeats(g, repeats)
  {
    var group := RecordGroup(OfLayer(records, layer), key);
    var sorted: seq<Record> :| SortedFrom(sorted, group) && sorted[0].repeatIndex == 0 && Detected(g, sorted);
    LayerIsUnique(records, layer);
    GroupIsUnique(OfLayer(records, layer), key);
    RearrangedIsUnique(sorted, group);
    forall i | 0 <= i < |sorted|
      ensures sorted[i] in records && sorted[i].layer == layer && KeyOf(sorted[i]) == key
    {
      SortedFromLayer(records, layer, key, sorted, sorted[i]);
    }
    forall i | 0 < i < |sorted| ensures sorted[i].repeatIndex != 0 {
      assert sorted[0] != sorted[i] && sorted[0] in records && sorted[i] in records;
      assert sorted[i].repeatIndex == 0 ==> SameRepeat(sorted[0], sorted[i]);
    }
    DetectedIsValidIff(g, sorted);
    forall k | 0 <= k < |g.driftedRepeats| ensures g.driftedRepeats[k] < repeats {
      InDriftedRepeats(sorted, |sorted|, g.driftedRepeats[k]);
    }
  }

  predicate ValidGroups(groups: seq<Group>, repeats: nat) {
    forall i :: 0 <= i < |groups| ==> ValidGroup(groups[i]) && WithinRepeats(groups[i], repeats)
  }

  lemma ProperGroupsAreValid(records: seq<Record>, repeats: nat, layer: Layer, groups: seq<Group>)
    requires ProperRecords(records, repeats) && GroupsOf(groups, OfLayer(records, layer))
    ensures ValidGroups(groups, repeats)
  {
    forall i | 0 <= i < |groups| ensures ValidGroup(groups[i]) && WithinRepeats(groups[i], repeats) {
      ProperGroupIsValid(records, repeats, layer, groups[i], GroupKeys(groups)[i]);
    }
  }

  lemma BothLayersAreValid(a: seq<Group>, b: seq<Group>, repeats: nat)
    requires ValidGroups(a, repeats) && ValidGroups(b, repeats)
    ensures ValidGroups(a + b, repeats)
  {
  }

  /** Evidence built from the records of a finished run validates exactly when no public check is calibrated twice. */
  lemma BuiltEvidenceIsValidIff(f: Flake, repeats: nat, records: seq<Record>, calibrations: seq<Calibration>)
    requires repeats > 0 && ProperRecords(records, repeats) && BuiltFlake(f, repeats, records, calibrations)
    ensures ValidFlake(f) <==> DistinctChecks(calibrations)
  {
    ProperGroupsAreValid(records, repeats, ScorerLayer, f.scorer);
    ProperGroupsAreValid(records, repeats, AgentLayer, f.agent);
    BothLayersAreValid(f.scorer, f.agent, repeats);
  }

  lemma {:induction false} CountDriftedZero(groups: seq<Group>)
    ensures CountDrifted(groups) == 0 <==> forall i :: 0 <= i < |groups| ==> !groups[i].drifted
  {
    if |groups| > 0 {
      CountDriftedZero(groups[..|groups| - 1]);
    }
  }

  /** All records of one control left the same files. */
  predicate RepeatsAgree(records: seq<Record>, layer: Layer) {
    forall r, q :: r in records && q in records && SameControl(r, q) && r.layer == layer ==> r.hashes == q.hashes
  }

  /**
   Stable means: at least two repeats, all repeats of every control left the same files, and every calibrated
   check saw one workspace, never failed and gave one result.
   */
  lemma StableIff(f: Flake, repeats: nat, records: seq<Record>, calibrations: seq<Calibration>)
    requires BuiltFlake(f, repeats, records, calibrations)
    requires forall i :: 0 <= i < |calibrations| ==> ValidCalibration(calibrations[i])
    ensures f.status == Stable <==>
      && repeats >= 2
      && RepeatsAgree(records, ScorerLayer) && RepeatsAgree(records, AgentLayer)
      && (forall i :: 0 <= i < |calibrations| ==> OneOutcome(calibrations[i].runs))
  {
    NoGroupDrifted(f.scorer, records, ScorerLayer);
    NoGroupDrifted(f.agent, records, AgentLayer);
    CountDriftedZero(f.scorer + f.agent);
    BothUndrifted(f.scorer, f.agent);
    NoCheckDrifted(calibrations);
    AllIdempotent(calibrations);
  }

  predicate NoneDrifted(groups: seq<Group>) {
    forall i :: 0 <= i < |groups| ==> !groups[i].drifted
  }

  lemma BothUndrifted(a: seq<Group>, b: seq<Group>)
    ensures NoneDrifted(a + b) <==> NoneDrifted(a) && NoneDrifted(b)
  {
    if NoneDrifted(a + b) {
      forall i | 0 <= i < |a| ensures !a[i].drifted {
        assert (a + b)[i] == a[i];
      }
      forall i | 0 <= i < |b| ensures !b[i].drifted {
        assert (a + b)[|a| + i] == b[i];
      }
    }
  }

  predicate OfControl(r: Record, layer: Layer, key: Key) {
    r.layer == layer && KeyOf(r) == key
  }

  predicate ControlAgrees(records: seq<Record>, layer: Layer, key: Key) {
    forall r, q :: r in records && q in records && OfControl(r, layer, key) && OfControl(q, layer, key) ==> r.hashes == q.hashes
  }

  lemma GroupUndriftedIff(g: Group, records: seq<Record>, layer: Layer, key: Key)
    requires GroupFor(g, RecordGroup(OfLayer(records, layer), key))
    ensures !g.drifted <==> ControlAgrees(records, layer, key)
  {
    var sorted: seq<Record> :| SortedFrom(sorted, RecordGroup(OfLayer(records, layer), key)) && sorted[0].repeatIndex == 0 && Detected(g, sorted);
    NoDriftIffAllEqual(g, sorted);
    forall r: Record ensures r in sorted <==> r in records && OfControl(r, layer, key) {
      SortedFromLayer(records, layer, key, sorted, r);
    }
    if ControlAgrees(records, layer, key) {
      forall a, b | 0 <= a < |sorted| && 0 <= b < |sorted| ensures sorted[a].hashes == sorted[b].hashes {
        assert sorted[a] in sorted && sorted[b] in sorted;
      }
    }
  }

  lemma NoGroupDrifted(groups: seq<Group>, records: seq<Record>, layer: Layer)
    requires GroupsOf(groups, OfLayer(records, layer))
    ensures NoneDrifted(groups) <==> RepeatsAgree(records, layer)
  {
    forall i | 0 <= i < |groups| ensures !groups[i].drifted <==> ControlAgrees(records, layer, GroupKeys(groups)[i]) {
      GroupUndriftedIff(groups[i], records, layer, GroupKeys(groups)[i]);
    }
    if NoneDrifted(groups) {
      forall r, q | r in records && q in records && SameControl(r, q) && r.layer == layer ensures r.hashes == q.hashes {
        LayerHolds(records, layer, r);
        var k :| 0 <= k < |OfLayer(records, layer)| && OfLayer(records, layer)[k] == r;
        assert KeyOf(r) in Elements(GroupKeys(groups));
        var i :| 0 <= i < |groups| && GroupKeys(groups)[i] == KeyOf(r);
        assert !groups[i].drifted && OfControl(r, layer, GroupKeys(groups)[i]) && OfControl(q, layer, GroupKeys(groups)[i]);
      }
    }
    if RepeatsAgree(records, layer) {
      forall i | 0 <= i < |groups| ensures ControlAgrees(records, layer, GroupKeys(groups)[i]) {
        forall r, q | r in records && q in records && OfControl(r, layer, GroupKeys(groups)[i]) && OfControl(q, layer, GroupKeys(groups)[i])
          ensures r.hashes == q.hashes
        {
          assert SameControl(r, q);
        }
      }
    }
  }

  lemma NoCheckDrifted(cs: seq<Calibration>)
    requires forall i :: 0 <= i < |cs| ==> ValidCalibration(cs[i])
    ensures (forall i :: 0 <= i < |cs| ==> cs[i].status == Idempotent) <==> (forall i :: 0 <= i < |cs| ==> OneOutcome(cs[i].runs))
  {
    forall i | 0 <= i < |cs| ensures cs[i].status == Idempotent <==> OneOutcome(cs[i].runs) {
      IdempotentIffOneOutcome(cs[i].runs);
    }
  }

  lemma AllIdempotent(cs: seq<Calibration>)
    ensures NonIdempotent !in Statuses(cs) && Inconclusive !in Statuses(cs)
       <==> forall i :: 0 <= i < |cs| ==> cs[i].status == Idempotent
  {
    forall i | 0 <= i < |cs| ensures cs[i].status in Statuses(cs) {
    }
  }

  // ---------------------------------------------------------------- reasons and verdicts

  /** Two runs of a check, or one before and after, that saw different workspaces. */
  predicate WorkspaceDiffers(runs: seq<CheckRun>) {
    exists i, j :: 0 <= i < |runs| && 0 <= j < |runs|
      && (runs[i].workspaceBefore != runs[j].workspaceBefore || runs[i].workspaceBefore != runs[j].workspaceAfter
          || runs[i].workspaceAfter != runs[j].workspaceAfter)
  }

  predicate ResultDiffers(runs: seq<CheckRun>) {
    exists i, j :: 0 <= i < |runs| && 0 <= j < |runs| && runs[i].Completed? && runs[j].Completed? && runs[i].resultHash != runs[j].resultHash
  }

  lemma TwoInSet<T>(s: set<T>, x: T, y: T)
    requires x in s && y in s && x != y
    ensures |s| > 1
  {
    if |s| <= 1 {
      SmallSet(s, x, y);
    }
  }

  lemma TwoOfMany<T>(s: set<T>) returns (x: T, y: T)
    requires |s| > 1
    ensures x in s && y in s && x != y
  {
    x :| x in s;
    assert |s - {x}| == |s| - 1;
    y :| y in s - {x};
  }

  lemma WorkspaceDriftIff(runs: seq<CheckRun>)
    ensures |WorkspaceHashes(runs)| > 1 <==> WorkspaceDiffers(runs)
  {
    var hashes := WorkspaceHashes(runs);
    if WorkspaceDiffers(runs) {
      var i, j :| 0 <= i < |runs| && 0 <= j < |runs|
        && (runs[i].workspaceBefore != runs[j].workspaceBefore || runs[i].workspaceBefore != runs[j].workspaceAfter
            || runs[i].workspaceAfter != runs[j].workspaceAfter);
      if runs[i].workspaceBefore != runs[j].workspaceBefore {
        TwoInSet(hashes, runs[i].workspaceBefore, runs[j].workspaceBefore);
      } else if runs[i].workspaceBefore != runs[j].workspaceAfter {
        TwoInSet(hashes, runs[i].workspaceBefore, runs[j].workspaceAfter);
      } else {
        TwoInSet(hashes, runs[i].workspaceAfter, runs[j].workspaceAfter);
      }
    }
    if |hashes| > 1 {
      var x, y := TwoOfMany(hashes);
      var i :| 0 <= i < |runs| && x in {runs[i].workspaceBefore, runs[i].workspaceAfter};
      var j :| 0 <= j < |runs| && y in {runs[j].workspaceBefore, runs[j].workspaceAfter};
      assert WorkspaceDiffers(runs);
    }
  }

  lemma ResultDriftIff(runs: seq<CheckRun>)
    ensures |ResultHashes(runs)| > 1 <==> ResultDiffers(runs)
  {
    var hashes := ResultHashes(runs);
    if i, j :| 0 <= i < |runs| && 0 <= j < |runs| && runs[i].Completed? && runs[j].Completed? && runs[i].resultHash != runs[j].resultHash {
      TwoInSet(hashes, runs[i].resultHash, runs[j].resultHash);
    }
    if |hashes| > 1 {
      var x, y := TwoOfMany(hashes);
      var i :| 0 <= i < |runs| && runs[i].Completed? && runs[i].resultHash == x;
      var j :| 0 <= j < |runs| && runs[j].Completed? && runs[j].resultHash == y;
      assert ResultDiffers(runs);
    }
  }

  /** The reasons name what differs, and the status what follows from it. */
  lemma CheckIsTold(runs: seq<CheckRun>)
    ensures WorkspaceStateDrift in Reasons(runs) <==> WorkspaceDiffers(runs)
    ensures NormalizedResultDrift in Reasons(runs) <==> ResultDiffers(runs)
    ensures DerivedStatus(runs) == NonIdempotent <==> WorkspaceDiffers(runs) || ResultDiffers(runs)
    ensures DerivedStatus(runs) == Inconclusive <==>
      !WorkspaceDiffers(runs) && !ResultDiffers(runs) && exists i :: 0 <= i < |runs| && runs[i].Failed?
  {
    WorkspaceDriftIff(runs);
    ResultDriftIff(runs);
  }

  /** Unstable means that something drifted; unknown, that nothing did but the evidence is not enough. */
  lemma UnstableIff(f: Flake, repeats: nat, records: seq<Record>, calibrations: seq<Calibration>)
    requires BuiltFlake(f, repeats, records, calibrations)
    requires forall i :: 0 <= i < |calibrations| ==> ValidCalibration(calibrations[i])
    ensures f.status == Unstable <==>
      || !RepeatsAgree(records, ScorerLayer) || !RepeatsAgree(records, AgentLayer)
      || exists i :: 0 <= i < |calibrations| && (WorkspaceDiffers(calibrations[i].runs) || ResultDiffers(calibrations[i].runs))
  {
    NoGroupDrifted(f.scorer, records, ScorerLayer);
    NoGroupDrifted(f.agent, records, AgentLayer);
    CountDriftedZero(f.scorer + f.agent);
    BothUndrifted(f.scorer, f.agent);
    forall i | 0 <= i < |calibrations|
      ensures calibrations[i].status == NonIdempotent <==> WorkspaceDiffers(calibrations[i].runs) || ResultDiffers(calibrations[i].runs)
    {
      CheckIsTold(calibrations[i].runs);
    }
    if NonIdempotent in Statuses(calibrations) {
      var i :| 0 <= i < |calibrations| && calibrations[i].status == NonIdempotent;
    }
    assert forall i :: 0 <= i < |calibrations| ==> calibrations[i].status in Statuses(calibrations);
  }
}
