/**
 * The result presenter (frontend/src/components/TransportAnalysis.js): a tab
 * selector kept as local state, the blocks shown for a given tab and result,
 * and the histogram of `cluster` labels built by a `reduce` over `clustered`.
 */
module Presenter {
  import opened Wrappers
  import opened ClusterModel

  datatype Tab = Visuals | Info

  /** The three fixed items of the info tab. */
  const InfoItems: seq<string> := [
    "Cluster Visualization: Nairobi pickup locations grouped by cluster with cluster centers.",
    "Boxplot Latitude: Outlier detection for latitude values.",
    "Boxplot Longitude: Outlier detection for longitude values."
  ]

  /** The component's only state: the selected tab. */
  class TransportAnalysis {
    var tab: Tab

    constructor ()
      ensures tab == Visuals
    {
      tab := Visuals;
    }

    /** The "Transport Visuals" button. */
    method SelectVisuals()
      modifies this
      ensures tab == Visuals
    {
      tab := Visuals;
    }

    /** The "Analysis Info" button. */
    method SelectInfo()
      modifies this
      ensures tab == Info
    {
      tab := Info;
    }
  }

  // ---------------------------------------------------------------- cluster counts

  /** `acc[c] = (acc[c] || 0) + 1`: one more record with label `c`. */
  function Bump(acc: map<int, nat>, c: int): map<int, nat> {
    acc[c := (if c in acc then acc[c] else 0) + 1]
  }

  /** `results.clustered || []`. */
  function RecordsOrEmpty(clustered: Option<seq<ClusteredRecord>>): seq<ClusteredRecord> {
    if clustered.Some? then clustered.value else []
  }

  /** The `reduce` over the records, from the empty object, as a left fold. */
  function Counts(records: seq<ClusteredRecord>): map<int, nat> {
    if records == [] then map[]
    else Bump(Counts(records[..|records| - 1]), records[|records| - 1].cluster)
  }

  /** The labels of the records, in order. */
  function Labels(records: seq<ClusteredRecord>): seq<int> {
    seq(|records|, i requires 0 <= i < |records| => records[i].cluster)
  }

  /** Some key of a non-empty map. */
  ghost function AnyKey(m: map<int, nat>): (c: int)
    requires |m| > 0
    ensures c in m
  {
    assert exists c :: c in m by {
      if forall c :: c !in m {
        assert false;
      }
    }
    var c :| c in m; c
  }

  /** The sum of the values of a count map. */
  ghost function Total(m: map<int, nat>): nat
    decreases |m|
  {
    if |m| == 0 then 0 else var c := AnyKey(m); m[c] + Total(m - {c})
  }

  /** The imperative `reduce` (TransportAnalysis.js:58-60). */
  method CountClusters(clustered: Option<seq<ClusteredRecord>>) returns (acc: map<int, nat>)
    ensures acc == Counts(RecordsOrEmpty(clustered))
  {
    var records := RecordsOrEmpty(clustered);
    acc := map[];
    for i := 0 to |records|
      invariant acc == Counts(records[..i])
    {
      var c := records[i].cluster;
      acc := acc[c := (if c in acc then acc[c] else 0) + 1];
      assert records[..i + 1][..i] == records[..i];
    }
    assert records[..|records|] == records;
  }

  /** Each label seen gets a key whose value is its number of occurrences; unseen labels get none. */
  lemma {:induction false} CountsAreOccurrences(records: seq<ClusteredRecord>)
    ensures forall c :: c in Counts(records) <==> c in Labels(records)
    ensures forall c :: c in Counts(records) ==> Counts(records)[c] == multiset(Labels(records))[c]
  {
    if records != [] {
      var init := records[..|records| - 1];
      var last := records[|records| - 1];
      CountsAreOccurrences(init);
      assert Labels(records) == Labels(init) + [last.cluster];
    }
  }

  /** Removing one key removes exactly its value from the total. */
  lemma {:induction false} TotalRemove(m: map<int, nat>, c: int)
    requires c in m
    ensures Total(m) == m[c] + Total(m - {c})
    decreases |m|
  {
    var d := AnyKey(m);
    if d != c {
      TotalRemove(m - {d}, c);
      TotalRemove(m - {c}, d);
      assert m - {d} - {c} == m - {c} - {d};
    }
  }

  /** Counting one more record raises the total by one. */
  lemma TotalBump(acc: map<int, nat>, c: int)
    ensures Total(Bump(acc, c)) == Total(acc) + 1
  {
    var b := Bump(acc, c);
    TotalRemove(b, c);
    if c in acc {
      TotalRemove(acc, c);
      assert b - {c} == acc - {c};
    } else {
      assert b - {c} == acc;
    }
  }

  /** The counts sum to the number of records. */
  lemma {:induction false} CountsSumToLength(records: seq<ClusteredRecord>)
    ensures Total(Counts(records)) == |records|
  {
    if records != [] {
      CountsSumToLength(records[..|records| - 1]);
      TotalBump(Counts(records[..|records| - 1]), records[|records| - 1].cluster);
    }
  }

  /** A missing `clustered` counts as empty and yields an empty map. */
  lemma MissingClusteredGivesNoCounts()
    ensures Counts(RecordsOrEmpty(None)) == map[]
  {
  }

  // ---------------------------------------------------------------- blocks shown

  /** `results && results.plots`. */
  predicate HasPlots(results: Option<ClusterResult>) {
    results.Some? && results.value.plots.Some? && Truthy(results.value.plots.value)
  }

  /** The results block: k, the centers and the label histogram. */
  datatype ResultsBlock = ResultsBlock(numClusters: int, centers: seq<Point>, counts: map<int, nat>)

  /** What the component renders below its tab buttons. */
  datatype View = View(placeholder: bool, resultsBlock: Option<ResultsBlock>, infoItems: seq<string>)

  /** The rendering of TransportAnalysis.js:44-73 for a tab and a result. */
  function Render(tab: Tab, results: Option<ClusterResult>): (v: View)
    ensures v.placeholder <==> tab == Visuals && (results.None? || results.value.plots.None? || !Truthy(results.value.plots.value))
    ensures v.resultsBlock.Some? <==> tab == Visuals && results.Some?
    ensures v.resultsBlock.Some? ==>
      && v.resultsBlock.value.numClusters == results.value.numClusters
      && v.resultsBlock.value.centers == results.value.centers
      && var records := RecordsOrEmpty(results.value.clustered);
         && (forall c :: c in v.resultsBlock.value.counts <==> c in Labels(records))
         && (forall c :: c in v.resultsBlock.value.counts ==> v.resultsBlock.value.counts[c] == multiset(Labels(records))[c])
         && Total(v.resultsBlock.value.counts) == |records|
    ensures v.infoItems == if tab == Info then InfoItems else []
  {
    var block :=
      if tab == Visuals && results.Some? then
        var records := RecordsOrEmpty(results.value.clustered);
        CountsAreOccurrences(records);
        CountsSumToLength(records);
        Some(ResultsBlock(results.value.numClusters, results.value.centers, Counts(records)))
      else None;
    View(tab == Visuals && !HasPlots(results), block, if tab == Info then InfoItems else [])
  }

  /** The info tab does not depend on the result. */
  lemma InfoIgnoresResults(r1: Option<ClusterResult>, r2: Option<ClusterResult>)
    ensures Render(Info, r1) == Render(Info, r2)
  {
  }

  /** A result without plots shows the placeholder and the results block together. */
  lemma PlaceholderBesideResults(r: ClusterResult)
    requires r.plots.None?
    ensures Render(Visuals, Some(r)).placeholder && Render(Visuals, Some(r)).resultsBlock.Some?
  {
  }
}
