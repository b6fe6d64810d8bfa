/**
 * The parsing loop of `Collect`: the captured output of
 * `unbound-control stats_noreset` becomes a map from statistic key to value.
 */
module StatsParser {
  import opened Wrappers
  import opened GoStrings

  /** What `strconv.ParseFloat` returns: a value and a possible error.
      Values are reals; IEEE details are not modelled. */
  datatype ParsedFloat = ParsedFloat(value: real, err: Option<string>)

  /** `strconv.ParseFloat(text, 8)`, left uninterpreted. */
  type FloatParser = string -> ParsedFloat

  /** The state of the loop: either still parsing, with the map built so
      far and the warnings logged so far, or stopped by the run-time panic
      that indexing `tokens[1]` raises on line `line`. */
  datatype ParseOutcome =
    | Parsed(snapshot: map<string, real>, warnings: seq<string>)
    | Panicked(line: nat, warnings: seq<string>)

  /** The lines of the captured output. */
  function Lines(text: string): seq<string>
  {
    Split(text, '\n')
  }

  /** A line that splits on "=" into at least two tokens. */
  predicate HasValue(line: string)
  {
    |Split(line, '=')| >= 2
  }

  /** A non-empty line without "=": indexing its second token panics. */
  predicate Malformed(line: string)
  {
    |line| > 0 && !HasValue(line)
  }

  /** `tokens[0]`: the statistic key of a line. */
  function Key(line: string): string
  {
    Split(line, '=')[0]
  }

  /** `tokens[1]`: the text handed to `ParseFloat`. */
  function ValueText(line: string): string
    requires HasValue(line)
  {
    Split(line, '=')[1]
  }

  /** The warning `log.Warnln` writes for a failed parse, if any. */
  function WarningOf(pf: ParsedFloat): seq<string>
  {
    if pf.err.Some? then ["Failed to parse float: " + pf.err.value] else []
  }

  /** One iteration of the loop, on line number `index`. */
  function Step(acc: ParseOutcome, index: nat, line: string, parse: FloatParser): ParseOutcome
  {
    match acc
    case Panicked(_, _) => acc
    case Parsed(m, w) =>
      if |line| == 0 then acc
      else if !HasValue(line) then Panicked(index, w)
      else
        var pf := parse(ValueText(line));
        Parsed(m[Key(line) := pf.value], w + WarningOf(pf))
  }

  /** The outcome of running the loop over all of `lines`, starting from an
      empty map. */
  function Parse(lines: seq<string>, parse: FloatParser): (r: ParseOutcome)
    ensures r.Panicked? ==> r.line < |lines| && Malformed(lines[r.line])
    decreases |lines|
  {
    if |lines| == 0 then Parsed(map[], [])
    else
      var init := lines[..|lines| - 1];
      var r := Step(Parse(init, parse), |lines| - 1, lines[|lines| - 1], parse);
      assert r.Panicked? && Parse(init, parse).Panicked? ==> lines[r.line] == init[r.line];
      r
  }

  /** The loop itself: split the output on "\n", skip empty lines, split each
      other line on "=" and store the parsed value under its key. */
  method ParseStats(text: string, parse: FloatParser) returns (r: ParseOutcome)
    ensures r == Parse(Lines(text), parse)
  {
    var lines := Split(text, '\n');
    var metrics: map<string, real> := map[];
    var warnings: seq<string> := [];
    var i := 0;
    while i < |lines|
      invariant 0 <= i <= |lines|
      invariant Parse(lines[..i], parse) == Parsed(metrics, warnings)
    {
      assert lines[..i + 1][..i] == lines[..i];
      var metric := lines[i];
      if |metric| == 0 {
        i := i + 1;
        continue;
      }
      var tokens := Split(metric, '=');
      if |tokens| < 2 {
        r := Panicked(i, warnings);
        PanicPersists(lines, i + 1, parse);
        assert lines[..|lines|] == lines;
        return;
      }
      var pf := parse(tokens[1]);
      if pf.err.Some? {
        warnings := warnings + ["Failed to parse float: " + pf.err.value];
      }
      metrics := metrics[tokens[0] := pf.value];
      i := i + 1;
    }
    assert lines[..i] == lines;
    r := Parsed(metrics, warnings);
  }

  /** Once the loop has panicked, later lines change nothing. */
  lemma {:induction false} PanicPersists(lines: seq<string>, n: nat, parse: FloatParser)
    requires n <= |lines|
    requires Parse(lines[..n], parse).Panicked?
    ensures Parse(lines, parse) == Parse(lines[..n], parse)
    decreases |lines|
  {
    if n < |lines| {
      var init := lines[..|lines| - 1];
      assert init[..n] == lines[..n];
      PanicPersists(init, n, parse);
    } else {
      assert lines[..n] == lines;
    }
  }

  /** A line has a value exactly when it contains "=". */
  lemma HasValueIff(line: string)
    ensures HasValue(line) <==> '=' in line
    ensures Malformed(line) <==> line != "" && '=' !in line
  {
    SplitSeveral(line, '=');
  }

  /** For "k=v" and "k=v=rest", with no "=" in k or v, the key is k and the
      value text is v: anything after a second "=" is ignored. */
  lemma LineFields(k: string, v: string, rest: string)
    requires '=' !in k && '=' !in v
    ensures HasValue(k + "=" + v) && Key(k + "=" + v) == k && ValueText(k + "=" + v) == v
    ensures HasValue(k + "=" + v + "=" + rest) && Key(k + "=" + v + "=" + rest) == k
    ensures ValueText(k + "=" + v + "=" + rest) == v
  {
    SplitFirst(k, '=', v);
    SplitNoSeparator(v, '=');
    SplitFirst(k, '=', v + "=" + rest);
    SplitFirst(v, '=', rest);
    assert k + "=" + v + "=" + rest == k + ['='] + (v + ['='] + rest);
  }

  /** The loop panics exactly when some line is malformed, and then on the
      first such line. */
  lemma {:induction false} PanicsIffMalformed(lines: seq<string>, parse: FloatParser)
    ensures Parse(lines, parse).Panicked? <==> exists i :: 0 <= i < |lines| && Malformed(lines[i])
    ensures Parse(lines, parse).Panicked? ==>
      var l := Parse(lines, parse).line;
      l < |lines| && Malformed(lines[l]) && forall j :: 0 <= j < l ==> !Malformed(lines[j])
    decreases |lines|
  {
    if |lines| > 0 {
      var init := lines[..|lines| - 1];
      PanicsIffMalformed(init, parse);
      if Parse(init, parse).Panicked? {
        var i :| 0 <= i < |init| && Malformed(init[i]);
        assert lines[i] == init[i];
      } else if Malformed(lines[|lines| - 1]) {
      } else {
        forall i | 0 <= i < |lines|
          ensures !Malformed(lines[i])
        {
          if i < |init| {
            assert lines[i] == init[i];
          }
        }
      }
    }
  }

  /** An output ending in "\n" parses like the same output without it:
      the trailing empty piece adds nothing. */
  lemma TrailingNewline(text: string, parse: FloatParser)
    ensures Parse(Lines(text + "\n"), parse) == Parse(Lines(text), parse)
  {
    SplitTrailing(text, '\n');
    var lines := Lines(text) + [""];
    assert lines[..|lines| - 1] == Lines(text);
  }

  /** The panic line number, moved past an inserted line at `at`. */
  function Shifted(r: ParseOutcome, at: nat): ParseOutcome
  {
    match r
    case Parsed(_, _) => r
    case Panicked(l, w) => Panicked(if l >= at then l + 1 else l, w)
  }

  /** An empty line anywhere adds no entry, no warning and no panic; it only
      moves the number of a later panic line by one. */
  lemma {:induction false} BlankLineIgnored(a: seq<string>, b: seq<string>, parse: FloatParser)
    ensures Parse(a + [""] + b, parse) == Shifted(Parse(a + b, parse), |a|)
    decreases |b|
  {
    if |b| == 0 {
      assert a + [""] + b == a + [""];
      assert (a + [""])[..|a|] == a;
      assert a + b == a;
      PanicsIffMalformed(a, parse);
    } else {
      var b' := b[..|b| - 1];
      var x := b[|b| - 1];
      BlankLineIgnored(a, b', parse);
      assert (a + [""] + b)[..|a| + 1 + |b'|] == a + [""] + b';
      assert (a + b)[..|a| + |b'|] == a + b';
    }
  }

  /** A key is in the parsed map exactly when some non-empty line has it. */
  lemma {:induction false} SnapshotKeys(lines: seq<string>, parse: FloatParser)
    requires Parse(lines, parse).Parsed?
    ensures forall k :: k in Parse(lines, parse).snapshot <==>
      exists i :: 0 <= i < |lines| && |lines[i]| > 0 && Key(lines[i]) == k
    decreases |lines|
  {
    if |lines| > 0 {
      var init := lines[..|lines| - 1];
      SnapshotKeys(init, parse);
      forall k
        ensures k in Parse(lines, parse).snapshot <==>
          exists i :: 0 <= i < |lines| && |lines[i]| > 0 && Key(lines[i]) == k
      {
        if k in Parse(init, parse).snapshot {
          var i :| 0 <= i < |init| && |init[i]| > 0 && Key(init[i]) == k;
          assert lines[i] == init[i];
        }
        if exists i :: 0 <= i < |lines| && |lines[i]| > 0 && Key(lines[i]) == k {
          var i :| 0 <= i < |lines| && |lines[i]| > 0 && Key(lines[i]) == k;
          if i < |init| {
            assert init[i] == lines[i];
          }
        }
      }
    }
  }

  /** If a key appears on several lines, the map holds the value parsed
      from the last of them. */
  lemma {:induction false} LastWriteWins(lines: seq<string>, i: nat, parse: FloatParser)
    requires Parse(lines, parse).Parsed?
    requires i < |lines| && |lines[i]| > 0
    requires forall j :: i < j < |lines| && |lines[j]| > 0 ==> Key(lines[j]) != Key(lines[i])
    ensures HasValue(lines[i])
    ensures Key(lines[i]) in Parse(lines, parse).snapshot
    ensures Parse(lines, parse).snapshot[Key(lines[i])] == parse(ValueText(lines[i])).value
    decreases |lines|
  {
    var init := lines[..|lines| - 1];
    if i < |lines| - 1 {
      assert init[i] == lines[i];
      LastWriteWins(init, i, parse);
    } else {
      PanicsIffMalformed(lines, parse);
    }
  }

  /** A failed `ParseFloat` does not stop the loop: parsers that agree on
      the values they return, whatever errors they report, give the same
      map and the same panic line. */
  lemma {:induction false} ErrorsDoNotAbort(lines: seq<string>, p: FloatParser, q: FloatParser)
    requires forall s :: p(s).value == q(s).value
    ensures Parse(lines, p).Parsed? <==> Parse(lines, q).Parsed?
    ensures Parse(lines, p).Parsed? ==> Parse(lines, p).snapshot == Parse(lines, q).snapshot
    ensures Parse(lines, p).Panicked? ==> Parse(lines, p).line == Parse(lines, q).line
    decreases |lines|
  {
    if |lines| > 0 {
      ErrorsDoNotAbort(lines[..|lines| - 1], p, q);
    }
  }

  /** Warnings come only from failed parses: when the value text of every
      line that has one parses without error, nothing is logged. */
  lemma {:induction false} NoErrorsNoWarnings(lines: seq<string>, parse: FloatParser)
    requires forall i :: 0 <= i < |lines| && HasValue(lines[i]) ==> parse(ValueText(lines[i])).err.None?
    ensures Parse(lines, parse).warnings == []
    decreases |lines|
  {
    if |lines| > 0 {
      var init := lines[..|lines| - 1];
      forall i | 0 <= i < |init| && HasValue(init[i])
        ensures parse(ValueText(init[i])).err.None?
      {
        assert init[i] == lines[i];
      }
      NoErrorsNoWarnings(init, parse);
    }
  }

  /** The number of lines whose value text `ParseFloat` rejects. */
  function FailedParses(lines: seq<string>, parse: FloatParser): nat
    decreases |lines|
  {
    if |lines| == 0 then 0
    else
      var last := lines[|lines| - 1];
      var failed := if HasValue(last) && parse(ValueText(last)).err.Some? then 1 else 0;
      FailedParses(lines[..|lines| - 1], parse) + failed
  }

  /** After a parse with no panic, there is exactly one warning per line
      whose value failed to parse, each carrying that parse's error. */
  lemma {:induction false} OneWarningPerFailure(lines: seq<string>, parse: FloatParser)
    requires Parse(lines, parse).Parsed?
    ensures |Parse(lines, parse).warnings| == FailedParses(lines, parse)
    ensures forall w :: w in Parse(lines, parse).warnings ==>
      |w| >= 23 && w[..23] == "Failed to parse float: "
    decreases |lines|
  {
    if |lines| > 0 {
      var init := lines[..|lines| - 1];
      var last := lines[|lines| - 1];
      assert Parse(init, parse).Parsed?;
      OneWarningPerFailure(init, parse);
      if |last| > 0 {
        var pf := parse(ValueText(last));
        assert Parse(lines, parse).warnings == Parse(init, parse).warnings + WarningOf(pf);
        if pf.err.Some? {
          var w := "Failed to parse float: " + pf.err.value;
          assert w[..23] == "Failed to parse float: ";
        }
      } else {
        assert !HasValue(last);
      }
    }
  }

  /** Two newline-terminated lines split into the two lines and a trailing
      empty piece. */
  lemma TwoLines(a: string, b: string)
    requires '\n' !in a && '\n' !in b
    ensures Lines(a + "\n" + b + "\n") == [a, b, ""]
  {
    SplitTrailing(b, '\n');
    SplitNoSeparator(b, '\n');
    assert a + "\n" + b + "\n" == a + ['\n'] + (b + ['\n']);
    SplitFirst(a, '\n', b + "\n");
  }

  /** Output of two well-formed lines "k1=v1" and "k2=v2", each ending in
      "\n": both values are stored, the second last, and each failed parse
      logs one warning. */
  lemma TwoStatLines(k1: string, v1: string, k2: string, v2: string, parse: FloatParser)
    requires '=' !in k1 && '=' !in v1 && '=' !in k2 && '=' !in v2
    requires '\n' !in k1 && '\n' !in v1 && '\n' !in k2 && '\n' !in v2
    ensures Parse(Lines(k1 + "=" + v1 + "\n" + k2 + "=" + v2 + "\n"), parse) ==
      Parsed(map[k1 := parse(v1).value][k2 := parse(v2).value],
             WarningOf(parse(v1)) + WarningOf(parse(v2)))
  {
    var l1, l2 := k1 + "=" + v1, k2 + "=" + v2;
    assert '\n' !in l1 && '\n' !in l2;
    assert k1 + "=" + v1 + "\n" + k2 + "=" + v2 + "\n" == l1 + "\n" + l2 + "\n";
    TwoLines(l1, l2);
    LineFields(k1, v1, "");
    LineFields(k2, v2, "");
    var lines := [l1, l2, ""];
    var p1, p2 := parse(v1), parse(v2);
    assert lines[..1][..0] == [];
    assert Parse(lines[..1], parse) == Parsed(map[k1 := p1.value], WarningOf(p1));
    assert lines[..2][..1] == lines[..1];
    assert Parse(lines[..2], parse) == Parsed(map[k1 := p1.value][k2 := p2.value], WarningOf(p1) + WarningOf(p2));
    assert lines[..3][..2] == lines[..2];
    assert lines[..3] == lines;
  }
}
