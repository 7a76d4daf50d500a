/**
 Status counts per layer, kept in nested dictionaries.  One counter runs over the attempts in memory, another
 over the attempts of a manifest, and two more add up finished tables; all four are the same multiset of labels.
 */
module LayerCounts {
  import opened Wrappers
  import opened EvalRecords

  datatype Layer =
    | ScorerStatus
    | ScorerPublicStatus
    | ScorerHiddenStatus
    | AgentStatus
    | PromptLoopStatus
    | AgentScorerStatus
    | AgentScorerPublicStatus
    | AgentScorerHiddenStatus

  type StatusCounts = map<string, nat>
  type Counts = map<Layer, StatusCounts>

  datatype Label = Label(layer: Layer, status: string)

  // ---------------------------------------------------------------- what an attempt contributes

  function ScorerLabels(s: ScorerSummary): seq<Label> {
    [Label(ScorerStatus, s.status), Label(ScorerPublicStatus, s.publicStatus), Label(ScorerHiddenStatus, s.hiddenStatus)]
  }

  function NestedScorerLabels(s: ScorerSummary): seq<Label> {
    [Label(AgentScorerStatus, s.status), Label(AgentScorerPublicStatus, s.publicStatus), Label(AgentScorerHiddenStatus, s.hiddenStatus)]
  }

  function AgentLabels(a: AgentSummary): seq<Label> {
    [Label(AgentStatus, a.status)] + LoopLabels(a.promptLoopStatus) + OptionalNestedLabels(a.scorerAttempt)
  }

  function LoopLabels(status: Option<string>): seq<Label> {
    if status.Some? then [Label(PromptLoopStatus, status.value)] else []
  }

  function OptionalNestedLabels(s: Option<ScorerSummary>): seq<Label> {
    if s.Some? then NestedScorerLabels(s.value) else []
  }

  function OptionalScorerLabels(s: Option<ScorerSummary>): seq<Label> {
    if s.Some? then ScorerLabels(s.value) else []
  }

  function OptionalAgentLabels(a: Option<AgentSummary>): seq<Label> {
    if a.Some? then AgentLabels(a.value) else []
  }

  function SummaryLabels(scorer: Option<ScorerSummary>, agent: Option<AgentSummary>): seq<Label> {
    OptionalScorerLabels(scorer) + OptionalAgentLabels(agent)
  }

  function Labels(a: AttemptRecord): seq<Label> {
    SummaryLabels(a.scorer, a.agent)
  }

  function ManifestLabels(a: ManifestAttempt): seq<Label> {
    SummaryLabels(a.scorer, a.agent)
  }

  lemma Regroup<T>(s: seq<T>, a: seq<T>, b: seq<T>, c: seq<T>)
    ensures s + a + b + c == s + (a + b + c)
  {
  }

  function Concat<T>(parts: seq<seq<T>>): seq<T> {
    if |parts| == 0 then [] else Concat(parts[..|parts| - 1]) + parts[|parts| - 1]
  }

  lemma ConcatSnoc<T>(parts: seq<seq<T>>, i: nat)
    requires i < |parts|
    ensures Concat(parts[..i + 1]) == Concat(parts[..i]) + parts[i]
  {
    assert parts[..i + 1][..i] == parts[..i];
  }

  lemma {:induction false} ConcatAppend<T>(a: seq<seq<T>>, b: seq<seq<T>>)
    ensures Concat(a + b) == Concat(a) + Concat(b)
  {
    if |b| == 0 {
      assert a + b == a;
    } else {
      assert (a + b)[..|a + b| - 1] == a + b[..|b| - 1];
      ConcatAppend(a, b[..|b| - 1]);
    }
  }

  function MapSeq<A, B>(f: A -> B, s: seq<A>): seq<B> {
    seq(|s|, i requires 0 <= i < |s| => f(s[i]))
  }

  lemma MapConcat<A, B>(f: A -> B, a: seq<A>, b: seq<A>)
    ensures MapSeq(f, a + b) == MapSeq(f, a) + MapSeq(f, b)
  {
  }

  function LabelLists(attempts: seq<AttemptRecord>): seq<seq<Label>> {
    MapSeq(Labels, attempts)
  }

  function ManifestLabelLists(attempts: seq<ManifestAttempt>): seq<seq<Label>> {
    MapSeq(ManifestLabels, attempts)
  }

  function AllLabels(attempts: seq<AttemptRecord>): seq<Label> {
    Concat(LabelLists(attempts))
  }

  function AllManifestLabels(attempts: seq<ManifestAttempt>): seq<Label> {
    Concat(ManifestLabelLists(attempts))
  }

  // ---------------------------------------------------------------- tables as multisets

  function Count(c: Counts, l: Label): nat {
    if l.layer in c && l.status in c[l.layer] then c[l.layer][l.status] else 0
  }

  /** No empty layer and no zero entry: exactly the tables counting produces. */
  predicate Compact(c: Counts) {
    && (forall layer :: layer in c ==> c[layer] != map[])
    && (forall layer, status :: layer in c && status in c[layer] ==> c[layer][status] > 0)
  }

  /** The table says of every label how often it occurs. */
  ghost predicate Tabulates(c: Counts, labels: multiset<Label>) {
    Compact(c) && forall l: Label :: Count(c, l) == labels[l]
  }

  lemma CompactEntry(c: Counts, layer: Layer, status: string)
    requires Compact(c)
    ensures layer in c && status in c[layer] <==> Count(c, Label(layer, status)) > 0
  {
  }

  /** A multiset of labels has one table, whatever order the counting took. */
  lemma TableIsUnique(c1: Counts, c2: Counts, labels: multiset<Label>)
    requires Tabulates(c1, labels) && Tabulates(c2, labels)
    ensures c1 == c2
  {
    forall layer, status
      ensures layer in c1 && status in c1[layer] <==> layer in c2 && status in c2[layer]
      ensures layer in c1 && status in c1[layer] ==> c1[layer][status] == c2[layer][status]
    {
      CompactEntry(c1, layer, status);
      CompactEntry(c2, layer, status);
      assert Count(c1, Label(layer, status)) == Count(c2, Label(layer, status));
    }
    LayersAgree(c1, c2);
    LayersAgree(c2, c1);
    forall layer | layer in c1 ensures c1[layer] == c2[layer] {
      assert forall status :: status in c1[layer] <==> status in c2[layer];
    }
  }

  lemma LayersAgree(c1: Counts, c2: Counts)
    requires Compact(c1)
    requires forall layer, status :: layer in c1 && status in c1[layer] ==> layer in c2 && status in c2[layer]
    ensures forall layer :: layer in c1 ==> layer in c2
  {
    forall layer | layer in c1 ensures layer in c2 {
      assert c1[layer] != map[];
      var status :| status in c1[layer];
    }
  }

  // ---------------------------------------------------------------- counting in place

  function StatusesOf(c: Counts, layer: Layer): StatusCounts {
    if layer in c then c[layer] else map[]
  }

  function Bumped(c: Counts, l: Label, n: nat): Counts {
    c[l.layer := StatusesOf(c, l.layer)[l.status := Count(c, l) + n]]
  }

  lemma BumpedCounts(c: Counts, target: Label, n: nat)
    ensures forall l :: Count(Bumped(c, target, n), l) == Count(c, l) + (if l == target then n else 0)
    ensures Compact(c) && n > 0 ==> Compact(Bumped(c, target, n))
  {
    assert target.status in Bumped(c, target, n)[target.layer];
  }

  /** Counting labels one by one. */
  function Tally(labels: seq<Label>): Counts {
    if |labels| == 0 then map[] else Bumped(Tally(labels[..|labels| - 1]), labels[|labels| - 1], 1)
  }

  lemma TallySnoc(labels: seq<Label>, l: Label)
    ensures Tally(labels + [l]) == Bumped(Tally(labels), l, 1)
  {
    assert (labels + [l])[..|labels|] == labels;
  }

  lemma {:induction false} TallyTabulates(labels: seq<Label>)
    ensures Tabulates(Tally(labels), multiset(labels))
  {
    if |labels| > 0 {
      var n := |labels| - 1;
      TallyTabulates(labels[..n]);
      BumpedCounts(Tally(labels[..n]), labels[n], 1);
      assert labels == labels[..n] + [labels[n]];
      assert multiset(labels) == multiset(labels[..n]) + multiset{labels[n]};
    }
  }

  /** One counting run: the table, and the labels counted so far. */
  class Counter {
    var counts: Counts
    ghost var counted: seq<Label>

    ghost predicate Valid()
      reads this
    {
      counts == Tally(counted)
    }

    constructor ()
      ensures Valid() && counted == []
    {
      counts, counted := map[], [];
    }

    /** setdefault, then one more. */
    method Increment(layer: Layer, status: string)
      requires Valid()
      modifies this
      ensures Valid() && counted == old(counted) + [Label(layer, status)]
    {
      var statuses := StatusesOf(counts, layer);
      var n: nat := if status in statuses then statuses[status] else 0;
      TallySnoc(counted, Label(layer, status));
      counts := counts[layer := statuses[status := n + 1]];
      counted := counted + [Label(layer, status)];
    }

    method CountScorer(s: ScorerSummary)
      requires Valid()
      modifies this
      ensures Valid() && counted == old(counted) + ScorerLabels(s)
    {
      Increment(ScorerStatus, s.status);
      Increment(ScorerPublicStatus, s.publicStatus);
      Increment(ScorerHiddenStatus, s.hiddenStatus);
    }

    method CountNestedScorer(s: Option<ScorerSummary>)
      requires Valid()
      modifies this
      ensures Valid() && counted == old(counted) + OptionalNestedLabels(s)
    {
      if s.Some? {
        Increment(AgentScorerStatus, s.value.status);
        Increment(AgentScorerPublicStatus, s.value.publicStatus);
        Increment(AgentScorerHiddenStatus, s.value.hiddenStatus);
      }
    }

    method CountLoop(status: Option<string>)
      requires Valid()
      modifies this
      ensures Valid() && counted == old(counted) + LoopLabels(status)
    {
      if status.Some? {
        Increment(PromptLoopStatus, status.value);
      }
    }

    method CountAgent(a: AgentSummary)
      requires Valid()
      modifies this
      ensures Valid() && counted == old(counted) + AgentLabels(a)
    {
      ghost var start := counted;
      Increment(AgentStatus, a.status);
      CountLoop(a.promptLoopStatus);
      CountNestedScorer(a.scorerAttempt);
      Regroup(start, [Label(AgentStatus, a.status)], LoopLabels(a.promptLoopStatus), OptionalNestedLabels(a.scorerAttempt));
    }

    method CountScorerIfAny(s: Option<ScorerSummary>)
      requires Valid()
      modifies this
      ensures Valid() && counted == old(counted) + OptionalScorerLabels(s)
    {
      if s.Some? {
        CountScorer(s.value);
      }
    }

    method CountAgentIfAny(a: Option<AgentSummary>)
      requires Valid()
      modifies this
      ensures Valid() && counted == old(counted) + OptionalAgentLabels(a)
    {
      if a.Some? {
        CountAgent(a.value);
      }
    }

    method CountSummaries(scorer: Option<ScorerSummary>, agent: Option<AgentSummary>)
      requires Valid()
      modifies this
      ensures Valid() && counted == old(counted) + SummaryLabels(scorer, agent)
    {
      ghost var start := counted;
      CountScorerIfAny(scorer);
      CountAgentIfAny(agent);
      assert counted == start + (OptionalScorerLabels(scorer) + OptionalAgentLabels(agent));
    }
  }

  /** count_eval_attempt_layers, over the attempts a run holds in memory. */
  method CountAttemptLayers(attempts: seq<AttemptRecord>) returns (counts: Counts)
    ensures Tabulates(counts, multiset(AllLabels(attempts)))
  {
    var counter := new Counter();
    for i := 0 to |attempts|
      invariant counter.Valid() && counter.counted == Concat(LabelLists(attempts)[..i])
    {
      ConcatSnoc(LabelLists(attempts), i);
      assert LabelLists(attempts)[i] == Labels(attempts[i]);
      counter.CountSummaries(attempts[i].scorer, attempts[i].agent);
    }
    assert LabelLists(attempts)[..|attempts|] == LabelLists(attempts);
    TallyTabulates(counter.counted);
    counts := counter.counts;
  }

  /** The validator's own counter, written apart from the producer's. */
  class Recounter {
    var counts: Counts
    ghost var counted: seq<Label>

    ghost predicate Valid()
      reads this
    {
      counts == Tally(counted)
    }

    constructor ()
      ensures Valid() && counted == []
    {
      counts, counted := map[], [];
    }

    /** _increment_layer_count: make sure of the layer, then of the status. */
    method IncrementLayerCount(layer: Layer, status: string)
      requires Valid()
      modifies this
      ensures Valid() && counted == old(counted) + [Label(layer, status)]
    {
      if layer !in counts {
        counts := counts[layer := map[]];
      }
      if status in counts[layer] {
        counts := counts[layer := counts[layer][status := counts[layer][status] + 1]];
      } else {
        counts := counts[layer := counts[layer][status := 1]];
      }
      TallySnoc(counted, Label(layer, status));
      counted := counted + [Label(layer, status)];
      assert counts == Bumped(Tally(old(counted)), Label(layer, status), 1);
    }

    method CountScorerSummary(s: Option<ScorerSummary>)
      requires Valid()
      modifies this
      ensures Valid() && counted == old(counted) + OptionalScorerLabels(s)
    {
      if s.Some? {
        IncrementLayerCount(ScorerStatus, s.value.status);
        IncrementLayerCount(ScorerPublicStatus, s.value.publicStatus);
        IncrementLayerCount(ScorerHiddenStatus, s.value.hiddenStatus);
      }
    }

    method CountAgentStatuses(status: string, loopStatus: Option<string>)
      requires Valid()
      modifies this
      ensures Valid() && counted == old(counted) + [Label(AgentStatus, status)] + LoopLabels(loopStatus)
    {
      IncrementLayerCount(AgentStatus, status);
      if loopStatus.Some? {
        IncrementLayerCount(PromptLoopStatus, loopStatus.value);
      }
    }

    method CountAgentScorer(s: Option<ScorerSummary>)
      requires Valid()
      modifies this
      ensures Valid() && counted == old(counted) + OptionalNestedLabels(s)
    {
      if s.Some? {
        IncrementLayerCount(AgentScorerStatus, s.value.status);
        IncrementLayerCount(AgentScorerPublicStatus, s.value.publicStatus);
        IncrementLayerCount(AgentScorerHiddenStatus, s.value.hiddenStatus);
      }
    }

    method CountAttempt(a: ManifestAttempt)
      requires Valid()
      modifies this
      ensures Valid() && counted == old(counted) + ManifestLabels(a)
    {
      CountScorerSummary(a.scorer);
      ghost var before := counted;
      if a.agent.Some? {
        var agent := a.agent.value;
        CountAgentStatuses(agent.status, agent.promptLoopStatus);
        CountAgentScorer(agent.scorerAttempt);
        Regroup(before, [Label(AgentStatus, agent.status)], LoopLabels(agent.promptLoopStatus), OptionalNestedLabels(agent.scorerAttempt));
      }
      assert counted == before + OptionalAgentLabels(a.agent);
    }
  }

  /** _count_eval_attempt_layers, over the attempts a manifest lists. */
  method CountManifestLayers(attempts: seq<ManifestAttempt>) returns (counts: Counts)
    ensures Tabulates(counts, multiset(AllManifestLabels(attempts)))
  {
    var counter := new Recounter();
    for i := 0 to |attempts|
      invariant counter.Valid() && counter.counted == Concat(ManifestLabelLists(attempts)[..i])
    {
      ConcatSnoc(ManifestLabelLists(attempts), i);
      assert ManifestLabelLists(attempts)[i] == ManifestLabels(attempts[i]);
      counter.CountAttempt(attempts[i]);
    }
    assert ManifestLabelLists(attempts)[..|attempts|] == ManifestLabelLists(attempts);
    TallyTabulates(counter.counted);
    counts := counter.counts;
  }

  // ---------------------------------------------------------------- adding finished tables

  /** Every label's count in c is the sum of its counts in a and b. */
  ghost predicate PointwiseSum(c: Counts, a: Counts, b: Counts) {
    && (forall l :: Count(c, l) == Count(a, l) + Count(b, l))
    && (Compact(a) && Compact(b) ==> Compact(c))
  }

  /** The nested loop over one table's items, entry by entry, in whatever order the dictionaries yield them. */
  method MergeTable(start: Counts, table: Counts) returns (counts: Counts)
    ensures PointwiseSum(counts, start, table)
  {
    counts := start;
    var layers := table.Keys;
    while layers != {}
      invariant layers <= table.Keys
      invariant forall l :: Count(counts, l) == Count(start, l) + (if l.layer !in layers then Count(table, l) else 0)
      invariant Compact(start) && Compact(table) ==> Compact(counts)
    {
      var layer :| layer in layers;
      counts := MergeLayer(counts, layer, table[layer]);
      layers := layers - {layer};
    }
  }

  method MergeLayer(start: Counts, layer: Layer, statuses: StatusCounts) returns (counts: Counts)
    ensures forall l :: Count(counts, l) == Count(start, l) + (if l.layer == layer && l.status in statuses then statuses[l.status] else 0)
    ensures Compact(start) && (forall status :: status in statuses ==> statuses[status] > 0) ==> Compact(counts)
  {
    counts := start;
    var left := statuses.Keys;
    while left != {}
      invariant left <= statuses.Keys
      invariant forall l :: Count(counts, l) == Count(start, l) + (if l.layer == layer && l.status in statuses && l.status !in left then statuses[l.status] else 0)
      invariant Compact(start) && (forall status :: status in statuses ==> statuses[status] > 0) ==> Compact(counts)
    {
      var status :| status in left;
      BumpedCounts(counts, Label(layer, status), statuses[status]);
      counts := Bumped(counts, Label(layer, status), statuses[status]);
      left := left - {status};
    }
  }

  ghost function SumOfCounts(tables: seq<Counts>, l: Label): nat {
    if |tables| == 0 then 0 else SumOfCounts(tables[..|tables| - 1], l) + Count(tables[|tables| - 1], l)
  }

  /** count_eval_matrix_layers and _count_eval_suite_layers: the tables of all policy runs, added up. */
  method MergeTables(tables: seq<Counts>) returns (counts: Counts)
    ensures forall l :: Count(counts, l) == SumOfCounts(tables, l)
    ensures (forall t :: t in tables ==> Compact(t)) ==> Compact(counts)
  {
    counts := map[];
    for i := 0 to |tables|
      invariant forall l :: Count(counts, l) == SumOfCounts(tables[..i], l)
      invariant (forall t :: t in tables ==> Compact(t)) ==> Compact(counts)
    {
      assert tables[..i + 1][..i] == tables[..i];
      counts := MergeTable(counts, tables[i]);
    }
    assert tables[..|tables|] == tables;
  }

  // ---------------------------------------------------------------- what the counters have in common

  lemma LabelsOfConcat(a: seq<AttemptRecord>, b: seq<AttemptRecord>)
    ensures AllLabels(a + b) == AllLabels(a) + AllLabels(b)
  {
    MapConcat(Labels, a, b);
    ConcatAppend(LabelLists(a), LabelLists(b));
  }

  /** Counting is a homomorphism: the table of two runs of attempts is the pointwise sum of their tables. */
  lemma CountingConcatenates(a: seq<AttemptRecord>, b: seq<AttemptRecord>, ca: Counts, cb: Counts, cab: Counts)
    requires Tabulates(ca, multiset(AllLabels(a))) && Tabulates(cb, multiset(AllLabels(b)))
    requires Tabulates(cab, multiset(AllLabels(a + b)))
    ensures PointwiseSum(cab, ca, cb)
    ensures forall c :: PointwiseSum(c, ca, cb) ==> c == cab
  {
    LabelsOfConcat(a, b);
    assert multiset(AllLabels(a + b)) == multiset(AllLabels(a)) + multiset(AllLabels(b));
    forall l: Label ensures Count(cab, l) == Count(ca, l) + Count(cb, l) {
    }
    forall c | PointwiseSum(c, ca, cb) ensures c == cab {
      assert Tabulates(c, multiset(AllLabels(a + b)));
      TableIsUnique(c, cab, multiset(AllLabels(a + b)));
    }
  }

  ghost predicate TabulateRuns(tables: seq<Counts>, runs: seq<seq<AttemptRecord>>) {
    && |tables| == |runs|
    && forall i :: 0 <= i < |runs| ==> Tabulates(tables[i], multiset(AllLabels(runs[i])))
  }

  lemma {:induction false} SumsAreTheFlatCount(tables: seq<Counts>, runs: seq<seq<AttemptRecord>>, l: Label)
    requires TabulateRuns(tables, runs)
    ensures SumOfCounts(tables, l) == multiset(AllLabels(Concat(runs)))[l]
  {
    if |runs| > 0 {
      var n := |runs| - 1;
      SumsAreTheFlatCount(tables[..n], runs[..n], l);
      LabelsOfConcat(Concat(runs[..n]), runs[n]);
      assert multiset(AllLabels(Concat(runs))) == multiset(AllLabels(Concat(runs[..n]))) + multiset(AllLabels(runs[n]));
      assert Tabulates(tables[n], multiset(AllLabels(runs[n])));
    }
  }

  /** Adding up the tables of all policy runs is counting all their attempts at once. */
  lemma MatrixCountIsTheFlatCount(tables: seq<Counts>, runs: seq<seq<AttemptRecord>>, merged: Counts, flat: Counts)
    requires TabulateRuns(tables, runs)
    requires (forall l :: Count(merged, l) == SumOfCounts(tables, l)) && Compact(merged)
    requires Tabulates(flat, multiset(AllLabels(Concat(runs))))
    ensures merged == flat
  {
    forall l: Label ensures Count(merged, l) == multiset(AllLabels(Concat(runs)))[l] {
      SumsAreTheFlatCount(tables, runs, l);
    }
    TableIsUnique(merged, flat, multiset(AllLabels(Concat(runs))));
  }

  /** The manifest lists the same summaries in the same order. */
  predicate SameSummaries(attempts: seq<AttemptRecord>, listed: seq<ManifestAttempt>) {
    && |attempts| == |listed|
    && forall i :: 0 <= i < |attempts| ==> attempts[i].scorer == listed[i].scorer && attempts[i].agent == listed[i].agent
  }

  lemma SameSummariesSameLabels(attempts: seq<AttemptRecord>, listed: seq<ManifestAttempt>)
    requires SameSummaries(attempts, listed)
    ensures AllLabels(attempts) == AllManifestLabels(listed)
  {
    forall i | 0 <= i < |attempts| ensures LabelLists(attempts)[i] == ManifestLabelLists(listed)[i] {
      assert Labels(attempts[i]) == ManifestLabels(listed[i]);
    }
    assert LabelLists(attempts) == ManifestLabelLists(listed);
  }

  /** The producer's counter and the validator's agree on every run. */
  lemma CountersAgree(attempts: seq<AttemptRecord>, listed: seq<ManifestAttempt>, produced: Counts, recounted: Counts)
    requires SameSummaries(attempts, listed)
    requires Tabulates(produced, multiset(AllLabels(attempts)))
    requires Tabulates(recounted, multiset(AllManifestLabels(listed)))
    ensures produced == recounted
  {
    SameSummariesSameLabels(attempts, listed);
    TableIsUnique(produced, recounted, multiset(AllLabels(attempts)));
  }

  // ---------------------------------------------------------------- layer totals

  /** sum(counts.values()). */
  ghost function Total(m: StatusCounts): nat {
    if m == map[] then 0 else var status :| status in m; m[status] + Total(m - {status})
  }

  lemma {:induction false} TotalPick(m: StatusCounts, status: string)
    requires status in m
    ensures Total(m) == m[status] + Total(m - {status})
  {
    var first :| first in m && Total(m) == m[first] + Total(m - {first});
    if first != status {
      TotalPick(m - {first}, status);
      TotalPick(m - {status}, first);
      assert m - {first} - {status} == m - {status} - {first};
    }
  }

  lemma TotalUpdate(m: StatusCounts, status: string, n: nat)
    ensures Total(m[status := n]) == Total(m) - (if status in m then m[status] else 0) + n
  {
    var after := m[status := n];
    TotalPick(after, status);
    assert after - {status} == m - {status};
    if status in m {
      TotalPick(m, status);
    } else {
      assert m - {status} == m;
    }
  }

  function InLayer(labels: seq<Label>, layer: Layer): nat {
    if |labels| == 0 then 0
    else InLayer(labels[..|labels| - 1], layer) + (if labels[|labels| - 1].layer == layer then 1 else 0)
  }

  lemma {:induction false} LayerTotalIsLabelCount(labels: seq<Label>, layer: Layer)
    ensures Total(StatusesOf(Tally(labels), layer)) == InLayer(labels, layer)
    ensures layer in Tally(labels) <==> InLayer(labels, layer) > 0
  {
    if |labels| > 0 {
      var n := |labels| - 1;
      var before, l := Tally(labels[..n]), labels[n];
      LayerTotalIsLabelCount(labels[..n], layer);
      if l.layer == layer {
        TotalUpdate(StatusesOf(before, layer), l.status, Count(before, l) + 1);
        assert StatusesOf(Tally(labels), layer) == StatusesOf(before, layer)[l.status := Count(before, l) + 1];
      } else {
        assert StatusesOf(Tally(labels), layer) == StatusesOf(before, layer);
      }
    }
  }

  lemma {:induction false} InLayerOfConcat(a: seq<Label>, b: seq<Label>, layer: Layer)
    ensures InLayer(a + b, layer) == InLayer(a, layer) + InLayer(b, layer)
  {
    if |b| == 0 {
      assert a + b == a;
    } else {
      assert (a + b)[..|a + b| - 1] == a + b[..|b| - 1];
      InLayerOfConcat(a, b[..|b| - 1], layer);
    }
  }

  /** Does this attempt carry a status in the layer? */
  predicate Carries(a: AttemptRecord, layer: Layer) {
    match layer
    case ScorerStatus => a.scorer.Some?
    case ScorerPublicStatus => a.scorer.Some?
    case ScorerHiddenStatus => a.scorer.Some?
    case AgentStatus => a.agent.Some?
    case PromptLoopStatus => a.agent.Some? && a.agent.value.promptLoopStatus.Some?
    case _ => a.agent.Some? && a.agent.value.scorerAttempt.Some?
  }

  function Carrying(attempts: seq<AttemptRecord>, layer: Layer): nat {
    if |attempts| == 0 then 0
    else Carrying(attempts[..|attempts| - 1], layer) + (if Carries(attempts[|attempts| - 1], layer) then 1 else 0)
  }

  lemma OneLabelPerLayer(a: AttemptRecord, layer: Layer)
    ensures InLayer(Labels(a), layer) == if Carries(a, layer) then 1 else 0
  {
    InLayerOfConcat(OptionalScorerLabels(a.scorer), OptionalAgentLabels(a.agent), layer);
    ScorerLabelLayers(a.scorer, layer);
    AgentLabelLayers(a.agent, layer);
  }

  lemma ThreeLabels(a: Label, b: Label, c: Label, layer: Layer)
    ensures InLayer([a, b, c], layer)
         == (if a.layer == layer then 1 else 0) + (if b.layer == layer then 1 else 0) + (if c.layer == layer then 1 else 0)
  {
    InLayerOfConcat([a] + [b], [c], layer);
    InLayerOfConcat([a], [b], layer);
    assert [a, b, c] == [a] + [b] + [c];
    OneLabel(a, layer);
    OneLabel(b, layer);
    OneLabel(c, layer);
  }

  lemma OneLabel(a: Label, layer: Layer)
    ensures InLayer([a], layer) == if a.layer == layer then 1 else 0
  {
    assert [a][..0] == [];
  }

  lemma ScorerLabelLayers(s: Option<ScorerSummary>, layer: Layer)
    ensures InLayer(OptionalScorerLabels(s), layer) == if s.Some? && layer in {ScorerStatus, ScorerPublicStatus, ScorerHiddenStatus} then 1 else 0
  {
    if s.Some? {
      ThreeLabels(Label(ScorerStatus, s.value.status), Label(ScorerPublicStatus, s.value.publicStatus), Label(ScorerHiddenStatus, s.value.hiddenStatus), layer);
    }
  }

  lemma AgentLabelLayers(a: Option<AgentSummary>, layer: Layer)
    ensures InLayer(OptionalAgentLabels(a), layer) ==
      if a.None? then 0
      else match layer
        case AgentStatus => 1
        case PromptLoopStatus => if a.value.promptLoopStatus.Some? then 1 else 0
        case AgentScorerStatus => if a.value.scorerAttempt.Some? then 1 else 0
        case AgentScorerPublicStatus => if a.value.scorerAttempt.Some? then 1 else 0
        case AgentScorerHiddenStatus => if a.value.scorerAttempt.Some? then 1 else 0
        case _ => 0
  {
    if a.Some? {
      InLayerOfConcat([Label(AgentStatus, a.value.status)], LoopLabels(a.value.promptLoopStatus), layer);
      InLayerOfConcat([Label(AgentStatus, a.value.status)] + LoopLabels(a.value.promptLoopStatus), OptionalNestedLabels(a.value.scorerAttempt), layer);
      OneLabel(Label(AgentStatus, a.value.status), layer);
      if a.value.promptLoopStatus.Some? {
        OneLabel(Label(PromptLoopStatus, a.value.promptLoopStatus.value), layer);
      }
      if a.value.scorerAttempt.Some? {
        var s := a.value.scorerAttempt.value;
        ThreeLabels(Label(AgentScorerStatus, s.status), Label(AgentScorerPublicStatus, s.publicStatus), Label(AgentScorerHiddenStatus, s.hiddenStatus), layer);
      }
    }
  }

  lemma {:induction false} LabelsInLayer(attempts: seq<AttemptRecord>, layer: Layer)
    ensures InLayer(AllLabels(attempts), layer) == Carrying(attempts, layer)
  {
    if |attempts| > 0 {
      var n := |attempts| - 1;
      LabelsInLayer(attempts[..n], layer);
      assert LabelLists(attempts)[..n] == LabelLists(attempts[..n]);
      InLayerOfConcat(AllLabels(attempts[..n]), Labels(attempts[n]), layer);
      assert LabelLists(attempts)[n] == Labels(attempts[n]);
      OneLabelPerLayer(attempts[n], layer);
    }
  }

  /** A layer's statuses add up to the attempts that carry the layer; a layer nobody carries is absent. */
  lemma LayerTotalIsCarryingAttempts(attempts: seq<AttemptRecord>, counts: Counts, layer: Layer)
    requires Tabulates(counts, multiset(AllLabels(attempts)))
    ensures layer in counts ==> Total(counts[layer]) == Carrying(attempts, layer)
    ensures layer in counts <==> Carrying(attempts, layer) > 0
  {
    TallyTabulates(AllLabels(attempts));
    TableIsUnique(counts, Tally(AllLabels(attempts)), multiset(AllLabels(attempts)));
    LayerTotalIsLabelCount(AllLabels(attempts), layer);
    LabelsInLayer(attempts, layer);
  }
}
