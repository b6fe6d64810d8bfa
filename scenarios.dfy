/**
 * Concrete collections: unbound-control outputs and what the exporter
 * makes of them.
 */
module Scenarios {
  import opened Wrappers
  import opened MetricCatalog
  import opened StatsParser
  import opened Exporter

  /** "a.b=1\na.b=2\n" maps a.b to the value parsed from "2". */
  lemma RepeatedKeyExample(text: string, parse: FloatParser)
    requires text == "a.b=1\na.b=2\n"
    ensures Parse(Lines(text), parse).Parsed?
    ensures Parse(Lines(text), parse).snapshot == map["a.b" := parse("2").value]
  {
    RepeatedKeyText(text);
    TwoStatLines("a.b", "1", "a.b", "2", parse);
  }

  /** That output, as the two "key=value" lines it is made of. */
  lemma RepeatedKeyText(text: string)
    requires text == "a.b=1\na.b=2\n"
    ensures text == "a.b" + "=" + "1" + "\n" + "a.b" + "=" + "2" + "\n"
  {
    assert "a.b" + "=" + "1" + "\n" == "a.b=1\n";
    assert "a.b=1\n" + "a.b" + "=" == "a.b=1\na.b=";
    assert "a.b=1\na.b=" + "2" + "\n" == text;
  }

  /** "a.b=notanumber\nc.d=5\n": the failed parse is logged, a.b gets the
      0 that `ParseFloat` returns with its error, and c.d is still parsed. */
  lemma MalformedValueExample(text: string, parse: FloatParser, err: string)
    requires text == "a.b=notanumber\nc.d=5\n"
    requires parse("notanumber") == ParsedFloat(0.0, Some(err))
    requires parse("5") == ParsedFloat(5.0, None)
    ensures Parse(Lines(text), parse) ==
      Parsed(map["a.b" := 0.0, "c.d" := 5.0], ["Failed to parse float: " + err])
  {
    MalformedText(text);
    TwoStatLines("a.b", "notanumber", "c.d", "5", parse);
    assert WarningOf(parse("notanumber")) + WarningOf(parse("5")) == ["Failed to parse float: " + err];
    assert map["a.b" := parse("notanumber").value]["c.d" := parse("5").value] == map["a.b" := 0.0, "c.d" := 5.0];
  }

  /** That output, as the two "key=value" lines it is made of. */
  lemma MalformedText(text: string)
    requires text == "a.b=notanumber\nc.d=5\n"
    ensures text == "a.b" + "=" + "notanumber" + "\n" + "c.d" + "=" + "5" + "\n"
  {
    assert "a.b" + "=" + "notanumber" == "a.b=notanumber";
    assert "a.b=notanumber" + "\n" + "c.d" == "a.b=notanumber\nc.d";
    assert "a.b=notanumber\nc.d" + "=" + "5" + "\n" == text;
  }

  /** The output "total.num.queries=42\ntotal.requestlist.avg=1.5\n"
      parses to those two entries, with no warning. */
  lemma ScrapeParse(text: string, parse: FloatParser)
    requires text == "total.num.queries=42\ntotal.requestlist.avg=1.5\n"
    requires parse("42") == ParsedFloat(42.0, None)
    requires parse("1.5") == ParsedFloat(1.5, None)
    ensures Parse(Lines(text), parse) ==
      Parsed(map["total.num.queries" := 42.0, "total.requestlist.avg" := 1.5], [])
  {
    ScrapeText(text);
    TwoStatLines("total.num.queries", "42", "total.requestlist.avg", "1.5", parse);
    assert WarningOf(parse("42")) + WarningOf(parse("1.5")) == [];
    assert map["total.num.queries" := parse("42").value]["total.requestlist.avg" := parse("1.5").value]
      == map["total.num.queries" := 42.0, "total.requestlist.avg" := 1.5];
  }

  /** The scrape's output, as the two "key=value" lines it is made of. */
  lemma ScrapeText(text: string)
    requires text == "total.num.queries=42\ntotal.requestlist.avg=1.5\n"
    ensures text == "total.num.queries" + "=" + "42" + "\n" + "total.requestlist.avg" + "=" + "1.5" + "\n"
  {
    assert "total.num.queries" + "=" == "total.num.queries=";
    assert "total.num.queries=" + "42" == "total.num.queries=42";
    assert "total.num.queries=42" + "\n" == "total.num.queries=42\n";
    assert "total.num.queries=42\n" + "total.requestlist.avg" == "total.num.queries=42\ntotal.requestlist.avg";
    assert "total.num.queries=42\ntotal.requestlist.avg" + "=" == "total.num.queries=42\ntotal.requestlist.avg=";
    assert "total.num.queries=42\ntotal.requestlist.avg=" + "1.5" == "total.num.queries=42\ntotal.requestlist.avg=1.5";
  }

  /** A map holding only total.num.queries and total.requestlist.avg emits
      their values as a counter and a gauge, and 0 for every other entry. */
  lemma TwoKeyEmission(m: map<string, real>, queries: real, avg: real)
    requires m == map["total.num.queries" := queries, "total.requestlist.avg" := avg]
    ensures var ms := Emission(m);
      |ms| == 13 &&
      ms[0] == ConstMetric(TotalNumQueries, CounterValue, queries) &&
      ms[5] == ConstMetric(TotalRequestlistAvg, GaugeValue, avg) &&
      forall i :: 0 <= i < 13 && i != 0 && i != 5 ==> ms[i].value == 0.0
  {
    assert Catalog[0].key == "total.num.queries" && Catalog[5].key == "total.requestlist.avg";
    KeysDistinct();
  }

  /** A whole collection whose output holds only total.num.queries=42 and
      total.requestlist.avg=1.5. */
  lemma ScrapeExample(text: string, parse: FloatParser)
    requires text == "total.num.queries=42\ntotal.requestlist.avg=1.5\n"
    requires parse("42") == ParsedFloat(42.0, None)
    requires parse("1.5") == ParsedFloat(1.5, None)
    ensures Parse(Lines(text), parse).Parsed?
    ensures var ms := Emission(Parse(Lines(text), parse).snapshot);
      |ms| == 13 &&
      ms[0] == ConstMetric(TotalNumQueries, CounterValue, 42.0) &&
      ms[5] == ConstMetric(TotalRequestlistAvg, GaugeValue, 1.5) &&
      forall i :: 0 <= i < 13 && i != 0 && i != 5 ==> ms[i].value == 0.0
  {
    ScrapeParse(text, parse);
    TwoKeyEmission(Parse(Lines(text), parse).snapshot, 42.0, 1.5);
  }
}
