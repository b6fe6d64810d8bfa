# unbound_exporter statistics pipeline, in Dafny

This project models the statistics pipeline of `unbound_exporter`, a
Prometheus exporter for the Unbound DNS resolver. On every scrape the exporter
does three things:

1. It runs `unbound-control stats_noreset`.
2. It parses the `key=value` lines of the output into a map from statistic
   key to value.
3. It sends one constant metric for each entry of a fixed catalogue of
   thirteen descriptors. A key missing from the map is sent as Go's zero
   value, 0.

The project also models `Describe`, which sends the catalogue's descriptors.

Modules, one per component:

- `GoStrings` (`go_strings.dfy`): Go's `strings.Split` for a one-character
  separator, with `Join` as its inverse. The exporter uses it for "\n" and "=".
- `MetricCatalog` (`catalog.dfy`): the thirteen descriptors
  (`BuildFQName("unbound", "", suffix)` plus help text), the table that pairs
  each descriptor with its unbound key and value type, and lemmas about names,
  keys and kinds.
- `StatsParser` (`stats_parser.dfy`): the parsing loop of `Collect`.
  `ParseStats` is the imperative loop over a `map` variable. Its loop
  invariant ties the map and the warnings to `Parse`, the specification
  function, applied to the lines processed so far.
- `Exporter` (`exporter.dfy`): `Describe`, catalogue-driven emission and the
  whole `Collect` cycle.
- `Scenarios` (`scenarios.dfy`): concrete outputs and what the exporter makes
  of them.
- `Wrappers` (`wrappers.dfy`): `Option`.

External parts are parameters:

- `strconv.ParseFloat` is a function parameter `FloatParser` that returns a
  value (a `real`) and an optional error message.
- Running the subprocess is a function parameter `Runner` from a command line
  to either its standard output or the error from `cmd.Run`.
- The Prometheus channels are the sequences that `Describe` and `Collect`
  return. Log output (`log.Warnln`) is the `warnings` sequence.
- `log.Fatalln` ends the process. It becomes the outcome `Fatal(message)`,
  with no metric sent.
- A non-empty line with no "=" makes `tokens[1]` panic. That becomes the
  outcome `Panic(line, warnings)`, also with no metric sent.

Behaviour worth noting:

- A non-empty line without "=" panics at `tokens[1]` (line 152) before any
  metric is sent.
- Each line is split on every "=" (line 151). The value text is the second
  token, so anything after a second "=" is dropped (`LineFields`).
- When `ParseFloat` reports an error, the key still gets the value it
  returned (lines 152-156). Go's `ParseFloat` returns 0 on a syntax error,
  and the malformed-value scenario assumes that.
- `Describe` sends the cache-hit descriptor twice (lines 118-119).
- When the command fails, `log.Fatalln` ends the whole process (line 144).

## Model

| member | source | states |
|---|---|---|
| GoStrings.Split | unbound_exporter.go:147 | splitting always yields at least one piece, and no piece contains the separator |
| GoStrings.JoinSplit | unbound_exporter.go:147 | joining the pieces with the separator restores the original text |
| GoStrings.SplitJoin | unbound_exporter.go:151 | splitting undoes joining pieces that contain no separator |
| GoStrings.SplitNoSeparator | unbound_exporter.go:151 | text without the separator is a single piece |
| GoStrings.SplitFirst | unbound_exporter.go:151 | the first piece is exactly the text before the first separator, and the rest is the split of what follows |
| GoStrings.SplitSeveral | unbound_exporter.go:151-152 | there are two or more tokens (so `tokens[1]` exists) exactly when the separator occurs |
| GoStrings.SplitTrailing | unbound_exporter.go:147 | a trailing "\n" adds exactly one empty piece at the end |
| MetricCatalog.BuildFQName | unbound_exporter.go:24 | the result is empty exactly when the name is, always ends with the name, and starts with namespace + "_" when both are non-empty; `FQNameWithoutSubsystem` gives the exact form used by the catalogue |
| MetricCatalog.FQNameWithoutSubsystem | unbound_exporter.go:24 | with an empty subsystem, `BuildFQName` gives namespace + "_" + name |
| MetricCatalog.ExportedNamesPrefixed | unbound_exporter.go:18-99 | every exported name starts with "unbound_" and has a non-empty suffix |
| MetricCatalog.CatalogNames | unbound_exporter.go:22-99 | entry i is exported as "unbound" + "_" + its i-th suffix, for all thirteen entries |
| MetricCatalog.ExportedNamesDistinct | unbound_exporter.go:22-99 | no two catalogue entries share an exported name |
| MetricCatalog.KeysDistinct | unbound_exporter.go:159-209 | no two catalogue entries read the same unbound key |
| MetricCatalog.KindsByKey | unbound_exporter.go:159-209 | an entry is a counter exactly when its key is one of the seven counter keys, and a gauge exactly when it is one of the six gauge keys |
| MetricCatalog.KeysCovered | unbound_exporter.go:159-209 | every listed counter or gauge key is read by some catalogue entry |
| StatsParser.Parse | unbound_exporter.go:147-157 | the loop body (`Step`) folded over the lines: a panic is always on a line that exists and is non-empty without "="; the lemmas below (`PanicsIffMalformed`, `SnapshotKeys`, `LastWriteWins`, `OneWarningPerFailure`, ...) state the rest |
| StatsParser.ParseStats | unbound_exporter.go:139-157 | the loop over the split output returns exactly what `Parse` gives for those lines: the map and warnings, or the panic line |
| StatsParser.PanicPersists | unbound_exporter.go:151-152 | once a prefix of the lines has panicked, the later lines change nothing |
| StatsParser.HasValueIff | unbound_exporter.go:151-152 | a line has a second token exactly when it contains "=", and is malformed exactly when it is non-empty and has no "=" |
| StatsParser.LineFields | unbound_exporter.go:151-156 | for "k=v" and "k=v=rest", with no "=" in k or v, the key is k and the value text is v, so text after a second "=" is ignored |
| StatsParser.PanicsIffMalformed | unbound_exporter.go:147-152 | parsing panics exactly when some line is non-empty without "=", and then at the first such line |
| StatsParser.TrailingNewline | unbound_exporter.go:147-150 | output ending in "\n" parses exactly like the same output without it |
| StatsParser.BlankLineIgnored | unbound_exporter.go:147-150 | inserting an empty line anywhere leaves the map, the warnings and the panic status unchanged, and only moves a later panic line number by one |
| StatsParser.SnapshotKeys | unbound_exporter.go:147-157 | after a parse with no panic, a key is in the map exactly when some non-empty line has it as its key |
| StatsParser.LastWriteWins | unbound_exporter.go:147-156 | a key stands for the value parsed from the last non-empty line that has that key |
| StatsParser.ErrorsDoNotAbort | unbound_exporter.go:152-156 | parse errors never stop the loop: two parsers that return the same values, whatever errors they report, give the same map and the same panic line |
| StatsParser.NoErrorsNoWarnings | unbound_exporter.go:152-155 | when the value text of every line that has one parses without error, no warning is logged |
| StatsParser.OneWarningPerFailure | unbound_exporter.go:152-155 | after a parse with no panic, there is exactly one warning per line whose value failed to parse, each starting "Failed to parse float: " |
| StatsParser.TwoLines | unbound_exporter.go:147 | two newline-terminated lines split into those two lines and a trailing empty piece |
| StatsParser.TwoStatLines | unbound_exporter.go:147-157 | output "k1=v1\nk2=v2\n" parses to both values, with the second stored last, and one warning per failed parse |
| Exporter.Describe | unbound_exporter.go:116-131 | 14 sends: the catalogue's descriptors in table order, with the cache-hit descriptor sent again third; `DescribeSameDescs` and `DescribeMatchesCatalog` give the set and the multiset |
| Exporter.EmitAll | unbound_exporter.go:159-209 | one metric per entry, in entry order, each with the entry's descriptor and value type and the value under its key, or 0 if the key is absent |
| Exporter.Collect | unbound_exporter.go:133-211 | runs `[command, "stats_noreset"]`; on exec failure the result is `Fatal("Failed to collect metrics: " + err)` with nothing emitted; otherwise it is the panic of the parse, or the catalogue emission of the parsed map together with the parse warnings |
| Exporter.DescribeRepeatsCacheHits | unbound_exporter.go:116-131 | `Describe` sends the catalogue's descriptors in table order with the second (cache hits) repeated: 14 sends |
| Exporter.DescribeSameDescs | unbound_exporter.go:116-131 | the descriptors `Describe` sends, as a set, are exactly the catalogue's |
| Exporter.DescribeMatchesCatalog | unbound_exporter.go:116-131 | as a multiset, `Describe` is the catalogue's descriptors plus one more cache-hit descriptor: that one is sent twice and every other once |
| Exporter.EmissionFollowsCatalog | unbound_exporter.go:159-209 | `Collect` emits exactly 13 metrics, in table order, with each entry's descriptor and kind and no two sharing a descriptor |
| Exporter.EmissionDescribed | unbound_exporter.go:116-209 | every metric `Collect` emits carries a descriptor that `Describe` sends |
| Exporter.MissingKeyIsZero | unbound_exporter.go:159-209 | an entry whose key is missing from the parsed map is emitted with value 0 |
| Exporter.EmissionDependsOnCatalogKeys | unbound_exporter.go:159-209 | two snapshots that agree, with the zero default for a missing key, on every catalogue key give the same emission |
| Exporter.UnknownKeysIgnored | unbound_exporter.go:159-209 | adding or changing a key that no entry reads leaves the emission unchanged |
| Exporter.EmittedKinds | unbound_exporter.go:159-209 | each emitted metric is a counter exactly for the seven counter keys and a gauge exactly for the six gauge keys |
| Exporter.CountersNonDecreasing | unbound_exporter.go:141-209 | counter values that did not decrease at the source between two scrapes are not emitted as decreasing |
| Scenarios.RepeatedKeyExample | unbound_exporter.go:147-157 | "a.b=1\na.b=2\n" parses to a.b mapped to the value parsed from "2" |
| Scenarios.MalformedValueExample | unbound_exporter.go:147-157 | "a.b=notanumber\nc.d=5\n" logs one warning, maps a.b to the 0 that `ParseFloat` returns with its error, and still maps c.d to 5 |
| Scenarios.ScrapeParse | unbound_exporter.go:147-157 | "total.num.queries=42\ntotal.requestlist.avg=1.5\n" parses to those two entries with no warning |
| Scenarios.TwoKeyEmission | unbound_exporter.go:159-209 | a map with only total.num.queries and total.requestlist.avg is emitted as that counter, that gauge, and 0 for the other eleven entries |
| Scenarios.ScrapeExample | unbound_exporter.go:147-209 | the whole scrape of that output emits 42 as a counter first, 1.5 as a gauge sixth, and 0 everywhere else |

## Left out

- Running the subprocess (`exec.Command`, `cmd.Run`, lines 141-145): only its outcome is modelled, either standard output or an error. The command line it is given is modelled.
- `NewExporter`'s `os.Stat` check (lines 106-114): filesystem I/O.
- `main`, flag parsing, the HTTP handlers, the HTML index page and version registration (lines 213-257): wiring and I/O.
- Float semantics of `strconv.ParseFloat`, including the `bitSize` argument of 8 and ±Inf on range errors: the parser is an uninterpreted function parameter, and values are reals.
- Prometheus internals: `NewDesc` validation, `MustNewConstMetric`, channel delivery and the exposition format. `BuildFQName` is modelled from the Prometheus client library's documented behaviour. The client library itself is not part of this model.
- What happens to the process after `log.Fatalln` or a panic: both become outcomes with no metric sent.
- Concurrency between scrapes: each `Collect` call is modelled on its own.
- Exporter.CountersNonDecreasing: it does not model the resolver's counters. It states only that the exporter passes values through unchanged, so values that did not decrease are not emitted as decreasing.
