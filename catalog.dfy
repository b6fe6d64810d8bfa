/**
 * The exporter's fixed catalogue: thirteen Prometheus descriptors, each
 * paired with the unbound statistic it is read from and the value type it
 * is exported as.
 */
module MetricCatalog {

  /** Prometheus value types used by the exporter. */
  datatype ValueType = CounterValue | GaugeValue

  /** A metric descriptor: fully-qualified name and help text (no labels). */
  datatype Desc = Desc(fqName: string, help: string)

  /** One catalogue row: the unbound key, the descriptor it is exported
      under and its value type. */
  datatype Entry = Entry(key: string, desc: Desc, kind: ValueType)

  const Namespace: string := "unbound"

  /** Prometheus' `BuildFQName`: the non-empty parts joined with "_",
      and "" when the name itself is empty. */
  function BuildFQName(namespace: string, subsystem: string, name: string): (fq: string)
    ensures fq == "" <==> name == ""
    ensures |fq| >= |name| && fq[|fq| - |name|..] == name
    ensures namespace != "" && name != "" ==> |fq| > |namespace| && fq[..|namespace| + 1] == namespace + "_"
  {
    if name == "" then ""
    else if namespace != "" && subsystem != "" then namespace + "_" + subsystem + "_" + name
    else if namespace != "" then namespace + "_" + name
    else if subsystem != "" then subsystem + "_" + name
    else name
  }

  const TotalNumQueries: Desc :=
    Desc(BuildFQName(Namespace, "", "total_num_queries"), "Number of queries for all threads.")
  const TotalNumCacheHits: Desc :=
    Desc(BuildFQName(Namespace, "", "total_num_cache_hits"), "Number of cache hits for all threads.")
  const TotalNumCacheMiss: Desc :=
    Desc(BuildFQName(Namespace, "", "total_num_cache_miss"), "Number of cache misses for all threads.")
  const TotalNumPrefetch: Desc :=
    Desc(BuildFQName(Namespace, "", "total_num_prefetch"), "Number of prefetches for all threads.")
  const TotalNumRecursiveReplies: Desc :=
    Desc(BuildFQName(Namespace, "", "total_num_recursive_replies"), "Number of recursive replies for all threads.")
  const TotalRequestlistAvg: Desc :=
    Desc(BuildFQName(Namespace, "", "total_requestlist_avg"), "Average requestlist size for all threads.")
  const TotalRequestlistMax: Desc :=
    Desc(BuildFQName(Namespace, "", "total_requestlist_max"), "Maximum requestlist size for all threads")
  const TotalRequestlistOverwritten: Desc :=
    Desc(BuildFQName(Namespace, "", "total_requestlist_overwritten"), "Number of items overwritten in requestlist for all threads")
  const TotalRequestlistExceeded: Desc :=
    Desc(BuildFQName(Namespace, "", "total_requestlist_exceeded"), "Number of items that exceeded the requestlist for all threads")
  const TotalRequestlistCurrentAll: Desc :=
    Desc(BuildFQName(Namespace, "", "total_requestlist_current_all"), "All current items on the requestlist for all threads")
  const TotalRequestlistCurrentUser: Desc :=
    Desc(BuildFQName(Namespace, "", "total_requestlist_current_user"), "User current items on the requestlist for all threads")
  const TotalRecursionTimeAvg: Desc :=
    Desc(BuildFQName(Namespace, "", "total_recurse_time_avg"), "Average time spent recursing")
  const TotalRecurseTimeMedian: Desc :=
    Desc(BuildFQName(Namespace, "", "total_recurse_time_median"), "Median time spent recursing")

  /** The table, in the order `Collect` sends its metrics. */
  const Catalog: seq<Entry> := [
    Entry("total.num.queries", TotalNumQueries, CounterValue),
    Entry("total.num.cachehits", TotalNumCacheHits, CounterValue),
    Entry("total.num.cachemiss", TotalNumCacheMiss, CounterValue),
    Entry("total.num.prefetch", TotalNumPrefetch, CounterValue),
    Entry("total.num.recursivereplies", TotalNumRecursiveReplies, CounterValue),
    Entry("total.requestlist.avg", TotalRequestlistAvg, GaugeValue),
    Entry("total.requestlist.max", TotalRequestlistMax, GaugeValue),
    Entry("total.requestlist.overwritten", TotalRequestlistOverwritten, CounterValue),
    Entry("total.requestlist.exceeded", TotalRequestlistExceeded, CounterValue),
    Entry("total.requestlist.current.all", TotalRequestlistCurrentAll, GaugeValue),
    Entry("total.requestlist.current.user", TotalRequestlistCurrentUser, GaugeValue),
    Entry("total.recursion.time.avg", TotalRecursionTimeAvg, GaugeValue),
    Entry("total.recursion.time.median", TotalRecurseTimeMedian, GaugeValue)
  ]

  /** The descriptors of the table, in table order. */
  function CatalogDescs(): (ds: seq<Desc>)
    ensures |ds| == |Catalog|
    ensures forall i :: 0 <= i < |Catalog| ==> ds[i] == Catalog[i].desc
  {
    seq(|Catalog|, i requires 0 <= i < |Catalog| => Catalog[i].desc)
  }

  /** With an empty subsystem the name is namespace, "_", name. */
  lemma FQNameWithoutSubsystem(namespace: string, name: string)
    requires namespace != "" && name != ""
    ensures BuildFQName(namespace, "", name) == namespace + "_" + name
  {
  }

  /** Every exported name is "unbound_" followed by a non-empty suffix. */
  lemma ExportedNamesPrefixed()
    ensures forall i :: 0 <= i < |Catalog| ==>
      |Catalog[i].desc.fqName| > 8 && Catalog[i].desc.fqName[..8] == "unbound_"
  {
  }

  /** The names the descriptors are built from, in table order. The list
      repeats the names written in the descriptor constants above, so that
      the names can be compared by index; `CatalogNames` checks that the two
      agree, and `ExportedNamesDistinct` uses the list to tell the exported
      names apart. */
  const Suffixes: seq<string> := [
    "total_num_queries", "total_num_cache_hits", "total_num_cache_miss", "total_num_prefetch",
    "total_num_recursive_replies", "total_requestlist_avg", "total_requestlist_max",
    "total_requestlist_overwritten", "total_requestlist_exceeded", "total_requestlist_current_all",
    "total_requestlist_current_user", "total_recurse_time_avg", "total_recurse_time_median"]

  /** Entry i is exported as "unbound_" followed by the i-th suffix: the
      suffix list agrees with the descriptor constants, entry by entry. */
  lemma CatalogNames()
    ensures |Suffixes| == |Catalog|
    ensures forall i :: 0 <= i < |Catalog| ==> Catalog[i].desc.fqName == Namespace + "_" + Suffixes[i]
  {
    forall i | 0 <= i < |Catalog|
      ensures Catalog[i].desc.fqName == Namespace + "_" + Suffixes[i]
    {
      FQNameWithoutSubsystem(Namespace, Suffixes[i]);
    }
  }

  /** No two entries share an exported name. */
  lemma ExportedNamesDistinct()
    ensures forall i, j :: 0 <= i < j < |Catalog| ==> Catalog[i].desc.fqName != Catalog[j].desc.fqName
  {
    CatalogNames();
    assert forall i, j :: 0 <= i < j < |Suffixes| ==> Suffixes[i] != Suffixes[j];
    forall i, j | 0 <= i < j < |Catalog|
      ensures Catalog[i].desc.fqName != Catalog[j].desc.fqName
    {
      var prefix := Namespace + "_";
      assert (prefix + Suffixes[i])[|prefix|..] == Suffixes[i];
      assert (prefix + Suffixes[j])[|prefix|..] == Suffixes[j];
    }
  }

  /** No two entries read the same unbound key. */
  lemma KeysDistinct()
    ensures forall i, j :: 0 <= i < j < |Catalog| ==> Catalog[i].key != Catalog[j].key
  {
  }

  const CounterKeys: set<string> :=
    {"total.num.queries", "total.num.cachehits", "total.num.cachemiss", "total.num.prefetch",
     "total.num.recursivereplies", "total.requestlist.overwritten", "total.requestlist.exceeded"}

  const GaugeKeys: set<string> :=
    {"total.requestlist.avg", "total.requestlist.max", "total.requestlist.current.all",
     "total.requestlist.current.user", "total.recursion.time.avg", "total.recursion.time.median"}

  /** Seven entries are counters and six are gauges, each fixed by its key. */
  lemma KindsByKey()
    ensures forall i :: 0 <= i < |Catalog| ==>
      (Catalog[i].kind == CounterValue <==> Catalog[i].key in CounterKeys) &&
      (Catalog[i].kind == GaugeValue <==> Catalog[i].key in GaugeKeys)
  {
  }

  /** Every counter or gauge key listed is read by some entry. */
  lemma KeysCovered()
    ensures forall k :: k in CounterKeys + GaugeKeys ==> exists i :: 0 <= i < |Catalog| && Catalog[i].key == k
  {
    var keys := seq(|Catalog|, i requires 0 <= i < |Catalog| => Catalog[i].key);
    assert keys == [
      "total.num.queries", "total.num.cachehits", "total.num.cachemiss", "total.num.prefetch",
      "total.num.recursivereplies", "total.requestlist.avg", "total.requestlist.max",
      "total.requestlist.overwritten", "total.requestlist.exceeded", "total.requestlist.current.all",
      "total.requestlist.current.user", "total.recursion.time.avg", "total.recursion.time.median"];
    forall k | k in CounterKeys + GaugeKeys
      ensures exists i :: 0 <= i < |Catalog| && Catalog[i].key == k
    {
      assert k in keys;
    }
  }
}
