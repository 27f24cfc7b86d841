/**
 The text-generation prompt built by `interpret_chart_with_gpt`
 (chart_engine.py): a header with the person's name, one `body: sign` line per
 chart entry, the moon phase, and a fixed instruction.
 */
module Prompt {
  import Chart
  import MoonPhase

  /** Python's `sep.join(xs)`. */
  function Join(xs: seq<string>, sep: string): (r: string)
    // a non-empty join starts with its first piece
    ensures |xs| > 0 ==> xs[0] <= r
  {
    if |xs| == 0 then ""
    else if |xs| == 1 then xs[0]
    else xs[0] + sep + Join(xs[1..], sep)
  }

  /** Joining two non-empty lists puts one separator between their joins. */
  lemma {:induction false} JoinAppend(xs: seq<string>, ys: seq<string>, sep: string)
    requires |xs| > 0 && |ys| > 0
    ensures Join(xs + ys, sep) == Join(xs, sep) + sep + Join(ys, sep)
  {
    if |xs| == 1 {
      assert (xs + ys)[1..] == ys;
    } else {
      assert (xs + ys)[1..] == xs[1..] + ys;
      JoinAppend(xs[1..], ys, sep);
    }
  }

  /** Python's `s.split(c)` with an explicit one-character separator. */
  function Split(s: string, c: char): (parts: seq<string>)
    ensures |parts| >= 1
  {
    if s == [] then [""]
    else
      var rest := Split(s[1..], c);
      if s[0] == c then [""] + rest else [[s[0]] + rest[0]] + rest[1..]
  }

  /** A piece without the separator splits into itself alone. */
  lemma {:induction false} SplitPlain(x: string, c: char)
    requires c !in x
    ensures Split(x, c) == [x]
  {
    if x != [] {
      assert x[0] in x;
      assert forall k :: 0 <= k < |x[1..]| ==> x[1..][k] == x[k + 1];
      SplitPlain(x[1..], c);
      assert [x[0]] + x[1..] == x;
    }
  }

  /** A piece without the separator, then the separator, splits off as the first part. */
  lemma {:induction false} SplitFirst(x: string, c: char, t: string)
    requires c !in x
    ensures Split(x + [c] + t, c) == [x] + Split(t, c)
  {
    if x == [] {
      assert x + [c] + t == [c] + t;
      assert ([c] + t)[1..] == t;
    } else {
      assert (x + [c] + t)[1..] == x[1..] + [c] + t;
      SplitFirst(x[1..], c, t);
      assert [x[0]] + x[1..] == x;
    }
  }

  /** Splitting on the separator undoes joining with it, when no piece contains it. */
  lemma {:induction false} SplitJoin(xs: seq<string>, c: char)
    requires |xs| > 0
    requires forall i :: 0 <= i < |xs| ==> c !in xs[i]
    ensures Split(Join(xs, [c]), c) == xs
  {
    if |xs| == 1 {
      SplitPlain(xs[0], c);
    } else {
      SplitFirst(xs[0], c, Join(xs[1..], [c]));
      SplitJoin(xs[1..], c);
    }
  }

  /** `f"{pl}: {sg}"` for one chart entry. */
  function EntryLine(entry: (string, string)): string
  {
    entry.0 + ": " + entry.1
  }

  /** `[f"{pl}: {sg}" for pl, sg in chart.items()]`. */
  function ChartLines(chart: Chart.Dict): (lines: seq<string>)
    ensures |lines| == |chart|
    ensures forall i :: 0 <= i < |chart| ==> lines[i] == EntryLine(chart[i])
  {
    seq(|chart|, i requires 0 <= i < |chart| => EntryLine(chart[i]))
  }

  /**
   The closing instruction. The four pieces concatenate to the source's single
   literal; it is split only because proving that the whole literal holds no
   newline in one step costs the verifier too much.
   */
  const Instruction: string := "Write a friendly " + "2-paragraph " + "astrological " + "interpretation."

  /** The prompt string of `interpret_chart_with_gpt`. */
  function BuildPrompt(record: Chart.ChartRecord): (prompt: string)
    ensures "Name: " + record.name + "\nBirth Chart:\n" <= prompt
    ensures var tail := "\nMoon Phase: " + record.moonPhase + "\n\n" + Instruction;
      |tail| <= |prompt| && prompt[|prompt| - |tail|..] == tail
  {
    // grouped as Python groups the adjacent literals around the `+` operators
    var chartText := Join(ChartLines(record.chart), "\n");
    var head := "Name: " + record.name + "\nBirth Chart:\n";
    var tail := "\nMoon Phase: " + record.moonPhase + "\n\n" + Instruction;
    assert (head + chartText + tail)[..|head|] == head;
    assert (head + chartText + tail)[|head + chartText|..] == tail;
    head + chartText + tail
  }

  /** The prompt read line by line: header, one line per chart entry, phase, a blank line, instruction. */
  function PromptLines(record: Chart.ChartRecord): seq<string>
  {
    ["Name: " + record.name, "Birth Chart:"]
    + ChartLines(record.chart)
    + ["Moon Phase: " + record.moonPhase, "", Instruction]
  }

  lemma JoinHead(nameLine: string)
    ensures Join([nameLine, "Birth Chart:"], "\n") == nameLine + "\n" + "Birth Chart:"
  {
    assert [nameLine, "Birth Chart:"][1..] == ["Birth Chart:"];
  }

  lemma JoinFoot(phaseLine: string)
    ensures Join([phaseLine, "", Instruction], "\n") == phaseLine + "\n" + ("" + "\n" + Instruction)
  {
    var foot := [phaseLine, "", Instruction];
    assert foot[1..] == ["", Instruction] && foot[1..][1..] == [Instruction];
    assert Join(foot[1..][1..], "\n") == Instruction;
    assert Join(foot[1..], "\n") == "" + "\n" + Instruction;
  }

  /** A non-empty chart makes the prompt exactly its lines joined by newlines. */
  lemma PromptIsJoinedLines(record: Chart.ChartRecord)
    requires |record.chart| > 0
    ensures BuildPrompt(record) == Join(PromptLines(record), "\n")
  {
    var nameLine, phaseLine := "Name: " + record.name, "Moon Phase: " + record.moonPhase;
    var head := [nameLine, "Birth Chart:"];
    var body := ChartLines(record.chart);
    var foot := [phaseLine, "", Instruction];
    var chartText := Join(body, "\n");
    JoinAppend(head, body, "\n");
    JoinAppend(head + body, foot, "\n");
    JoinHead(nameLine);
    JoinFoot(phaseLine);
    assert PromptLines(record) == (head + body) + foot;
    var headText := "Name: " + record.name + "\nBirth Chart:\n";
    var tailText := "\nMoon Phase: " + record.moonPhase + "\n\n" + Instruction;
    assert headText == Join(head, "\n") + "\n" by {
      assert "\nBirth Chart:\n" == "\n" + "Birth Chart:" + "\n";
    }
    assert tailText == "\n" + Join(foot, "\n") by {
      assert "\nMoon Phase: " == "\n" + "Moon Phase: ";
      assert "\n\n" == "\n" + "\n";
    }
    assert BuildPrompt(record) == headText + chartText + tailText;
    Regroup(Join(head, "\n"), "\n", chartText, "\n", Join(foot, "\n"));
  }

  lemma Regroup(a: string, b: string, c: string, d: string, e: string)
    ensures (a + b) + c + (d + e) == a + b + c + d + e
  {
  }

  /** No newline in a string. */
  predicate SingleLine(s: string)
  {
    '\n' !in s
  }

  lemma SingleLineConcat(a: string, b: string)
    requires SingleLine(a) && SingleLine(b)
    ensures SingleLine(a + b)
  {
  }

  lemma SingleLineText(s: string)
    requires forall k :: 0 <= k < |s| ==> s[k] != '\n'
    ensures SingleLine(s)
  {
  }

  lemma InstructionSingleLine()
    ensures SingleLine(Instruction)
  {
  }

  /**
   When the name, the phase and every chart entry are single lines, splitting
   the prompt on newlines gives back its lines: the chart can be read back
   from the prompt entry by entry.
   */
  lemma PromptSplitsIntoLines(record: Chart.ChartRecord)
    requires |record.chart| > 0
    requires SingleLine(record.name) && SingleLine(record.moonPhase)
    requires forall i :: 0 <= i < |record.chart| ==> SingleLine(record.chart[i].0) && SingleLine(record.chart[i].1)
    ensures Split(BuildPrompt(record), '\n') == PromptLines(record)
  {
    PromptIsJoinedLines(record);
    var lines := PromptLines(record);
    var n := |record.chart|;
    SingleLineText("Name: ");
    SingleLineText(": ");
    SingleLineText("Moon Phase: ");
    SingleLineText("Birth Chart:");
    InstructionSingleLine();
    forall i | 0 <= i < |lines| ensures '\n' !in lines[i] {
      if i == 0 {
        SingleLineConcat("Name: ", record.name);
      } else if 2 <= i < 2 + n {
        assert lines[i] == record.chart[i - 2].0 + ": " + record.chart[i - 2].1;
        SingleLineConcat(record.chart[i - 2].0, ": ");
        SingleLineConcat(record.chart[i - 2].0 + ": ", record.chart[i - 2].1);
      } else if i == 2 + n {
        SingleLineConcat("Moon Phase: ", record.moonPhase);
      }
    }
    SplitJoin(lines, '\n');
  }

  /** None of the phase names spans a line break. */
  lemma PhaseNamesSingleLine(phase: string)
    requires phase in MoonPhase.PhaseNames
    ensures SingleLine(phase)
  {
  }

  /**
   The prompt for a chart from `generate_chart`: the name line, then
   `Sun: <sign>` through `Pluto: <sign>` in that order, then the phase.
   */
  lemma GeneratedPromptLines(name: string, signOf: string -> string, sunLon: real, moonLon: real, fraction: real)
    requires SingleLine(name)
    requires forall i :: 0 <= i < |Chart.Bodies| ==> SingleLine(signOf(Chart.Bodies[i]))
    ensures var record := Chart.GenerateChart(name, signOf, sunLon, moonLon, fraction);
      var lines := Split(BuildPrompt(record), '\n');
      && |lines| == 15
      && lines[0] == "Name: " + name
      && lines[1] == "Birth Chart:"
      && (forall i :: 0 <= i < 10 ==> lines[2 + i] == Chart.Bodies[i] + ": " + signOf(Chart.Bodies[i]))
      && lines[12] == "Moon Phase: " + record.moonPhase
      && lines[13] == ""
      && lines[14] == Instruction
  {
    var record := Chart.GenerateChart(name, signOf, sunLon, moonLon, fraction);
    BodyLinesOfPrompt(record, signOf);
  }

  /** The line structure of the prompt for any record whose chart lists the ten bodies with their signs. */
  lemma BodyLinesOfPrompt(record: Chart.ChartRecord, signOf: string -> string)
    requires SingleLine(record.name)
    requires record.moonPhase in MoonPhase.PhaseNames
    requires |record.chart| == |Chart.Bodies|
    requires forall i :: 0 <= i < |Chart.Bodies| ==> record.chart[i] == (Chart.Bodies[i], signOf(Chart.Bodies[i]))
    requires forall i :: 0 <= i < |Chart.Bodies| ==> SingleLine(signOf(Chart.Bodies[i]))
    ensures var lines := Split(BuildPrompt(record), '\n');
      && |lines| == 15
      && lines[0] == "Name: " + record.name
      && lines[1] == "Birth Chart:"
      && (forall i :: 0 <= i < 10 ==> lines[2 + i] == Chart.Bodies[i] + ": " + signOf(Chart.Bodies[i]))
      && lines[12] == "Moon Phase: " + record.moonPhase
      && lines[13] == ""
      && lines[14] == Instruction
  {
    GeneratedChartSingleLine(record.chart, signOf);
    PhaseNamesSingleLine(record.moonPhase);
    PromptSplitsIntoLines(record);
    var body := ChartLines(record.chart);
    var lines := ["Name: " + record.name, "Birth Chart:"] + body + ["Moon Phase: " + record.moonPhase, "", Instruction];
    assert Split(BuildPrompt(record), '\n') == lines;
    assert |body| == 10;
    forall i | 0 <= i < 10 ensures lines[2 + i] == Chart.Bodies[i] + ": " + signOf(Chart.Bodies[i]) {
      assert lines[2 + i] == body[i] == EntryLine(record.chart[i]);
    }
  }

  /** The chart of `generate_chart` has single-line entries when the sign lookup gives single lines. */
  lemma GeneratedChartSingleLine(chart: Chart.Dict, signOf: string -> string)
    requires |chart| == |Chart.Bodies|
    requires forall i :: 0 <= i < |Chart.Bodies| ==> chart[i] == (Chart.Bodies[i], signOf(Chart.Bodies[i]))
    requires forall i :: 0 <= i < |Chart.Bodies| ==> SingleLine(signOf(Chart.Bodies[i]))
    ensures forall i :: 0 <= i < |chart| ==> SingleLine(chart[i].0) && SingleLine(chart[i].1)
  {
  }
}
