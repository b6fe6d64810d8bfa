/**
 * The exporter's two Prometheus callbacks. `Describe` lists descriptors;
 * `Collect` runs unbound-control, parses its output and emits one metric
 * per catalogue entry. Channels are modelled as the sequences returned.
 */
module Exporter {
  import opened MetricCatalog
  import opened Wrappers
  import opened StatsParser

  /** The exporter holds the path of unbound-control. */
  datatype Exporter = Exporter(command: string)

  /** What running the subprocess gives: its standard output, or the error
      `cmd.Run` returned (start failure or non-zero exit). */
  datatype ExecOutcome = Ran(stdout: string) | Failed(err: string)

  /** Running a command line, left uninterpreted. */
  type Runner = seq<string> -> ExecOutcome

  /** A constant metric as `MustNewConstMetric` builds it. */
  datatype Metric = ConstMetric(desc: Desc, kind: ValueType, value: real)

  /** How one `Collect` call ends: the metrics sent and the warnings
      logged; or `log.Fatalln`, which ends the process before anything is
      sent; or the index panic of a malformed line, also before any send. */
  datatype CollectResult =
    | Emitted(metrics: seq<Metric>, warnings: seq<string>)
    | Fatal(message: string)
    | Panic(line: nat, warnings: seq<string>)

  /** The descriptors `Describe` sends, in order; the cache-hit descriptor
      is sent twice. */
  function Describe(e: Exporter): (ds: seq<Desc>)
    ensures |ds| == |Catalog| + 1
    ensures forall i :: 0 <= i < |Catalog| ==> ds[if i < 2 then i else i + 1] == Catalog[i].desc
    ensures ds[2] == Catalog[1].desc == TotalNumCacheHits
  {
    [TotalNumQueries, TotalNumCacheHits, TotalNumCacheHits, TotalNumCacheMiss, TotalNumPrefetch,
     TotalNumRecursiveReplies, TotalRequestlistAvg, TotalRequestlistMax,
     TotalRequestlistOverwritten, TotalRequestlistExceeded, TotalRequestlistCurrentAll,
     TotalRequestlistCurrentUser, TotalRecursionTimeAvg, TotalRecurseTimeMedian]
  }

  /** Go's `metrics[key]`: the stored value, or the zero value. */
  function Lookup(snapshot: map<string, real>, key: string): real
  {
    if key in snapshot then snapshot[key] else 0.0
  }

  /** One metric per entry, in entry order, each carrying the entry's
      descriptor and value type and the value found under its key. */
  function EmitAll(entries: seq<Entry>, snapshot: map<string, real>): (ms: seq<Metric>)
    ensures |ms| == |entries|
    ensures forall i :: 0 <= i < |entries| ==>
      ms[i] == ConstMetric(entries[i].desc, entries[i].kind, Lookup(snapshot, entries[i].key))
    decreases |entries|
  {
    if |entries| == 0 then []
    else
      var m := ConstMetric(entries[0].desc, entries[0].kind, Lookup(snapshot, entries[0].key));
      [m] + EmitAll(entries[1..], snapshot)
  }

  /** The sends at the end of `Collect`. */
  function Emission(snapshot: map<string, real>): seq<Metric>
  {
    EmitAll(Catalog, snapshot)
  }

  /** The command line run for each collection. */
  function Invocation(e: Exporter): seq<string>
  {
    [e.command, "stats_noreset"]
  }

  /** One collection: run `unbound-control stats_noreset`, stop on failure,
      parse the output and emit the catalogue. */
  method Collect(e: Exporter, run: Runner, parse: FloatParser) returns (r: CollectResult)
    ensures run(Invocation(e)).Failed? ==>
      r == Fatal("Failed to collect metrics: " + run(Invocation(e)).err)
    ensures run(Invocation(e)).Ran? ==>
      var parsed := Parse(Lines(run(Invocation(e)).stdout), parse);
      match parsed
      case Parsed(m, w) => r == Emitted(Emission(m), w)
      case Panicked(l, w) => r == Panic(l, w)
  {
    var outcome := run([e.command, "stats_noreset"]);
    if outcome.Failed? {
      return Fatal("Failed to collect metrics: " + outcome.err);
    }
    var parsed := ParseStats(outcome.stdout, parse);
    match parsed
    case Panicked(l, w) =>
      r := Panic(l, w);
    case Parsed(metrics, warnings) =>
      r := Emitted(Emission(metrics), warnings);
  }

  /** `Describe` sends the catalogue's descriptors in table order, with the
      second one repeated: 14 sends of 13 descriptors. */
  lemma DescribeRepeatsCacheHits(e: Exporter)
    ensures Describe(e) == CatalogDescs()[..2] + CatalogDescs()[1..]
    ensures |Describe(e)| == |Catalog| + 1
    ensures Describe(e)[1] == Describe(e)[2] == TotalNumCacheHits
  {
  }

  /** As a set, `Describe` sends exactly the catalogue's descriptors. */
  lemma DescribeSameDescs(e: Exporter)
    ensures forall d :: d in Describe(e) <==> d in CatalogDescs()
  {
    DescribeRepeatsCacheHits(e);
    RepeatSecondMembers(Describe(e), CatalogDescs());
  }

  /** `Describe` sends each catalogue descriptor once, except the cache-hit
      one, which it sends twice. */
  lemma DescribeMatchesCatalog(e: Exporter)
    ensures multiset(Describe(e)) == multiset(CatalogDescs()) + multiset{TotalNumCacheHits}
    ensures forall i :: 0 <= i < |Catalog| ==>
      multiset(Describe(e))[Catalog[i].desc] == if i == 1 then 2 else 1
  {
    DescribeRepeatsCacheHits(e);
    ExportedNamesDistinct();
    RepeatSecond(Describe(e), CatalogDescs());
  }

  /** Repeating the second element of a sequence adds nothing new. */
  lemma RepeatSecondMembers(repeated: seq<Desc>, ds: seq<Desc>)
    requires |ds| >= 2 && repeated == ds[..2] + ds[1..]
    ensures forall d :: d in repeated <==> d in ds
  {
    assert ds == ds[..1] + ds[1..];
  }

  /** Repeating the second element of a sequence without duplicates adds
      one copy of it. */
  lemma RepeatSecond(repeated: seq<Desc>, ds: seq<Desc>)
    requires |ds| >= 2 && repeated == ds[..2] + ds[1..]
    requires forall i, j :: 0 <= i < j < |ds| ==> ds[i] != ds[j]
    ensures multiset(repeated) == multiset(ds) + multiset{ds[1]}
    ensures forall i :: 0 <= i < |ds| ==> multiset(repeated)[ds[i]] == if i == 1 then 2 else 1
  {
    assert ds == ds[..1] + ds[1..];
    assert ds[..2] == ds[..1] + [ds[1]];
    OccursOnce(ds);
  }

  /** In a sequence without duplicates every element occurs once. */
  lemma {:induction false} OccursOnce(ds: seq<Desc>)
    requires forall i, j :: 0 <= i < j < |ds| ==> ds[i] != ds[j]
    ensures forall i :: 0 <= i < |ds| ==> multiset(ds)[ds[i]] == 1
  {
    if |ds| > 0 {
      var tail := ds[1..];
      OccursOnce(tail);
      assert ds == [ds[0]] + tail;
      assert ds[0] !in tail;
      forall i | 0 < i < |ds|
        ensures multiset(ds)[ds[i]] == 1
      {
        assert ds[i] == tail[i - 1];
      }
    }
  }

  /** `Collect` emits one metric per entry, in table order, and no two
      emitted metrics share a descriptor. */
  lemma EmissionFollowsCatalog(snapshot: map<string, real>)
    ensures |Emission(snapshot)| == |Catalog| == 13
    ensures forall i :: 0 <= i < |Catalog| ==>
      Emission(snapshot)[i].desc == Catalog[i].desc && Emission(snapshot)[i].kind == Catalog[i].kind
    ensures forall i, j :: 0 <= i < j < |Catalog| ==> Emission(snapshot)[i].desc != Emission(snapshot)[j].desc
  {
    ExportedNamesDistinct();
  }

  /** Everything `Collect` emits is described by `Describe`. */
  lemma EmissionDescribed(e: Exporter, snapshot: map<string, real>)
    ensures forall m :: m in Emission(snapshot) ==> m.desc in Describe(e)
  {
    DescribeSameDescs(e);
    DescsAmong(Emission(snapshot), CatalogDescs(), Describe(e));
  }

  /** Metrics whose descriptors are, index by index, those of `ds` have
      their descriptors among any superset of `ds`. */
  lemma DescsAmong(ms: seq<Metric>, ds: seq<Desc>, described: seq<Desc>)
    requires |ms| == |ds| && forall i :: 0 <= i < |ms| ==> ms[i].desc == ds[i]
    requires forall d :: d in ds ==> d in described
    ensures forall m :: m in ms ==> m.desc in described
  {
    forall m | m in ms
      ensures m.desc in described
    {
      var i :| 0 <= i < |ms| && ms[i] == m;
      assert ds[i] in ds;
    }
  }

  /** A catalogue key missing from the parsed map is emitted as 0. */
  lemma MissingKeyIsZero(snapshot: map<string, real>, i: nat)
    requires i < |Catalog| && Catalog[i].key !in snapshot
    ensures Emission(snapshot)[i].value == 0.0
  {
  }

  /** The emission depends on a snapshot only through the catalogue's keys:
      snapshots that agree, under Go's zero-default lookup, on every key the
      catalogue reads give the same metrics. */
  lemma EmissionDependsOnCatalogKeys(s1: map<string, real>, s2: map<string, real>)
    requires forall i :: 0 <= i < |Catalog| ==> Lookup(s1, Catalog[i].key) == Lookup(s2, Catalog[i].key)
    ensures Emission(s1) == Emission(s2)
  {
  }

  /** In particular, adding or changing a key outside the catalogue never
      affects what is emitted. */
  lemma UnknownKeysIgnored(snapshot: map<string, real>, key: string, v: real)
    requires forall i :: 0 <= i < |Catalog| ==> Catalog[i].key != key
    ensures Emission(snapshot[key := v]) == Emission(snapshot)
  {
    EmissionDependsOnCatalogKeys(snapshot[key := v], snapshot);
  }

  /** The value type of each emitted metric is fixed by its key: seven
      counters and six gauges. */
  lemma EmittedKinds(snapshot: map<string, real>)
    ensures forall i :: 0 <= i < |Catalog| ==>
      (Emission(snapshot)[i].kind == CounterValue <==> Catalog[i].key in CounterKeys) &&
      (Emission(snapshot)[i].kind == GaugeValue <==> Catalog[i].key in GaugeKeys)
  {
    KindsByKey();
  }

  /** Collection reads counters without resetting them, so counter values
      that only grew at the source are emitted as non-decreasing. */
  lemma CountersNonDecreasing(before: map<string, real>, after: map<string, real>)
    requires forall i :: 0 <= i < |Catalog| && Catalog[i].kind == CounterValue ==>
      Lookup(before, Catalog[i].key) <= Lookup(after, Catalog[i].key)
    ensures forall i :: 0 <= i < |Catalog| && Emission(before)[i].kind == CounterValue ==>
      Emission(before)[i].value <= Emission(after)[i].value
  {
  }
}
