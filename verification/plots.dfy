/** The text that drives gnuplot: `plot_defs` (one series clause per data
    file), the template with its three placeholders, the chain of
    replacements that fills it for one plot, and the catalogue of plots.

    `GnuplotScript` is the chain as the program runs it; `FilledScript` says
    directly what the filled template is. `ScriptIsFilledTemplate` proves the
    two equal, which holds because `$PLOTS` is replaced before
    `$COLUMN_IDX`. */
module Plots {
  import opened Decimal
  import opened Replace
  import CumulativeColumns

  const PLOTS_VAR: string := "$PLOTS"
  const COLUMN_IDX_VAR: string := "$COLUMN_IDX"
  const YLABEL_VAR: string := "$YLABEL"

  /** The text of a clause before and after the column, around the path and
      the title. */
  const USING: string := "\" using ($0+1):"
  const WITH_TITLE: string := " with linespoints title \""
  const CLAUSE_END: string := "\", "

  /** A transformed CSV file: its path, and the title of its series. */
  datatype DataFile = DataFile(path: string, title: string)

  /** The series clause of one file; `column` is what follows `($0+1):`. */
  function Clause(f: DataFile, column: string): (c: string)
    ensures |c| == 1 + |f.path| + |USING| + |column| + |WITH_TITLE| + |f.title| + |CLAUSE_END|
    ensures c[..1 + |f.path|] == "\"" + f.path
    ensures c[1 + |f.path|..1 + |f.path| + |USING| + |column|] == USING + column
  {
    "\"" + f.path + USING + column + WITH_TITLE + f.title + CLAUSE_END
  }

  function Clauses(files: seq<DataFile>, column: string): seq<string> {
    seq(|files|, k requires 0 <= k < |files| => Clause(files[k], column))
  }

  /** `parts.join(sep)`: the parts in order with `sep` between neighbours. */
  function Join(sep: string, parts: seq<string>): (r: string)
    ensures parts == [] ==> r == []
    ensures |parts| == 1 ==> r == parts[0]
  {
    if parts == [] then []
    else if |parts| == 1 then parts[0]
    else parts[0] + sep + Join(sep, parts[1..])
  }

  /** A join splits after any part into the join of the parts before, one
      separator, and the join of the parts from there on. */
  lemma {:induction false} JoinSplit(sep: string, parts: seq<string>, k: nat)
    requires 0 < k < |parts|
    ensures Join(sep, parts) == Join(sep, parts[..k]) + sep + Join(sep, parts[k..])
    decreases k
  {
    var rest := parts[1..];
    if k == 1 {
      assert parts[..1] == [parts[0]];
      assert parts[1..] == rest;
    } else {
      JoinSplit(sep, rest, k - 1);
      assert parts[..k][1..] == rest[..k - 1];
      assert parts[k..] == rest[k - 1..];
    }
  }

  /** A non-empty join starts with its first part. */
  lemma JoinStartsWithFirst(sep: string, parts: seq<string>)
    requires parts != []
    ensures parts[0] <= Join(sep, parts)
  {
  }

  /** `plot_defs`: the clauses of the files, in file order, joined by one
      space, each still with the `$COLUMN_IDX` placeholder. */
  function PlotDefs(files: seq<DataFile>): (defs: string)
    ensures files == [] ==> defs == []
    ensures |files| == 1 ==> defs == Clause(files[0], COLUMN_IDX_VAR)
  {
    Join(" ", Clauses(files, COLUMN_IDX_VAR))
  }

  /** `plot_defs` of no file is empty, of one file is that file's clause,
      and of several files starts with the first file's clause; after the
      first `k` files it continues with exactly one space and `plot_defs` of
      the remaining files. */
  lemma PlotDefsLayout(files: seq<DataFile>, k: nat)
    requires 0 < k < |files|
    ensures files[..1] == [files[0]] && PlotDefs([files[0]]) == Clause(files[0], COLUMN_IDX_VAR)
    ensures Clause(files[0], COLUMN_IDX_VAR) <= PlotDefs(files)
    ensures PlotDefs(files) == PlotDefs(files[..k]) + " " + PlotDefs(files[k..])
  {
    var parts := Clauses(files, COLUMN_IDX_VAR);
    JoinSplit(" ", parts, k);
    assert parts[..k] == Clauses(files[..k], COLUMN_IDX_VAR);
    assert parts[k..] == Clauses(files[k..], COLUMN_IDX_VAR);
    assert Clauses([files[0]], COLUMN_IDX_VAR) == [Clause(files[0], COLUMN_IDX_VAR)];
    JoinStartsWithFirst(" ", parts);
  }

  /** The template, as the text around its two placeholders. */
  datatype Segment = Text(text: string) | PlotsSlot | YLabelSlot

  /** `GNUPLOT_TEMPLATE`, with its terminal, grid, line-style and data-file
      settings given as `styling`. */
  function GnuplotTemplate(styling: string): (t: seq<Segment>)
    ensures |t| == 5 && t[1] == YLabelSlot && t[3] == PlotsSlot
    ensures forall i :: 0 <= i < |t| && i != 1 && i != 3 ==> t[i].Text?
    ensures t[0].Text? && |t[0].text| >= 12 && t[2].Text? && |t[2].text| >= 5
    ensures "set ylabel \"" == t[0].text[|t[0].text| - 12..]
    ensures "plot " == t[2].text[|t[2].text| - 5..]
  {
    [ Text("\n" + styling + "set xlabel \"call\"\nset ylabel \""),
      YLabelSlot,
      Text("\"\n\nset xrange [0:1000]\n\nplot "),
      PlotsSlot,
      Text("\n") ]
  }

  function SegmentChunk(s: Segment): string {
    match s
    case Text(t) => t
    case PlotsSlot => PLOTS_VAR
    case YLabelSlot => YLABEL_VAR
  }

  function TemplateChunks(template: seq<Segment>): seq<string> {
    seq(|template|, i requires 0 <= i < |template| => SegmentChunk(template[i]))
  }

  /** The template as text, placeholders included. */
  function TemplateText(template: seq<Segment>): string {
    Concat(TemplateChunks(template))
  }

  /** `plot_name.replace("_", " ")`. */
  function YLabel(plotName: string): (y: string)
    ensures |y| == |plotName|
  {
    ReplaceAll(plotName, "_", " ")
  }

  /** The y-label is the plot name with every underscore turned into a
      space, and nothing else changed. */
  lemma YLabelReplacesUnderscores(plotName: string)
    ensures
      var y := YLabel(plotName);
      && |y| == |plotName|
      && forall i :: 0 <= i < |y| ==> y[i] == (if plotName[i] == '_' then ' ' else plotName[i])
  {
    ReplaceCharIsSubstitution(plotName, '_', ' ');
  }

  /** The script for one plot, as `main` builds it: `$PLOTS`, then
      `$COLUMN_IDX`, then `$YLABEL` replaced in the template text. */
  function GnuplotScript(template: seq<Segment>, files: seq<DataFile>, plotName: string, column: nat): string {
    var withPlots := ReplaceAll(TemplateText(template), PLOTS_VAR, PlotDefs(files));
    var withColumn := ReplaceAll(withPlots, COLUMN_IDX_VAR, NatToString(column));
    ReplaceAll(withColumn, YLABEL_VAR, YLabel(plotName))
  }

  /** The filled template stated directly: the text segments as they are,
      every series clause with the plotted column after `($0+1):`, and the
      plot name with underscores turned into spaces as the y-label. */
  function FilledSegment(s: Segment, files: seq<DataFile>, plotName: string, column: nat): string {
    match s
    case Text(t) => t
    case PlotsSlot => Join(" ", Clauses(files, NatToString(column)))
    case YLabelSlot => Substituted(plotName, '_', ' ')
  }

  function FilledScript(template: seq<Segment>, files: seq<DataFile>, plotName: string, column: nat): string
  {
    if template == [] then []
    else FilledSegment(template[0], files, plotName, column) + FilledScript(template[1..], files, plotName, column)
  }

  predicate NoDollar(s: string) {
    '$' !in s
  }

  /** What the program supplies contains no `$`: the template's own text,
      the paths and titles of the files, and the plot name. */
  predicate PlainInputs(template: seq<Segment>, files: seq<DataFile>, plotName: string) {
    && (forall i :: 0 <= i < |template| && template[i].Text? ==> NoDollar(template[i].text))
    && (forall k :: 0 <= k < |files| ==> NoDollar(files[k].path) && NoDollar(files[k].title))
    && NoDollar(plotName)
  }

  /** Every `$` is followed by `0`: the only `$` left is that of `($0+1)`. */
  predicate Settled(s: string) {
    forall i :: 0 <= i < |s| && s[i] == '$' ==> i + 1 < |s| && s[i + 1] == '0'
  }

  predicate Placeholder(s: string) {
    s == PLOTS_VAR || s == COLUMN_IDX_VAR || s == YLABEL_VAR
  }

  lemma SettledAppend(a: string, b: string)
    requires Settled(a) && Settled(b)
    ensures Settled(a + b)
  {
  }

  lemma DigitsNoDollar(s: string)
    requires AllDigits(s)
    ensures NoDollar(s)
  {
  }

  lemma NoDollarSettled(s: string)
    requires NoDollar(s)
    ensures Settled(s)
  {
  }

  /** Settled text holds none of the three placeholders. */
  lemma SettledHasNoPlaceholder(s: string, p: string, i: nat)
    requires Settled(s) && Placeholder(p)
    ensures !OccursAt(s, p, i)
  {
    if i + |p| <= |s| {
      var found := s[i..i + |p|];
      assert found[0] == s[i] && found[1] == s[i + 1];
      assert p[0] == '$' && p[1] != '0';
    }
  }

  lemma SettledInert(s: string, p: string)
    requires Settled(s) && Placeholder(p)
    ensures Inert(s, p)
  {
  }

  lemma ClauseSettled(f: DataFile, column: string)
    requires NoDollar(f.path) && NoDollar(f.title) && NoDollar(column)
    ensures Settled(Clause(f, column))
  {
    assert Settled(USING);
    NoDollarSettled("\"");
    NoDollarSettled(f.path);
    NoDollarSettled(column);
    NoDollarSettled(WITH_TITLE);
    NoDollarSettled(f.title);
    NoDollarSettled(CLAUSE_END);
    SettledAppend("\"", f.path);
    SettledAppend("\"" + f.path, USING);
    SettledAppend("\"" + f.path + USING, column);
    SettledAppend("\"" + f.path + USING + column, WITH_TITLE);
    SettledAppend("\"" + f.path + USING + column + WITH_TITLE, f.title);
    SettledAppend("\"" + f.path + USING + column + WITH_TITLE + f.title, CLAUSE_END);
  }

  lemma {:induction false} JoinSettled(sep: string, parts: seq<string>)
    requires Settled(sep) && forall k :: 0 <= k < |parts| ==> Settled(parts[k])
    ensures Settled(Join(sep, parts))
    decreases |parts|
  {
    if |parts| > 1 {
      JoinSettled(sep, parts[1..]);
      SettledAppend(parts[0], sep);
      SettledAppend(parts[0] + sep, Join(sep, parts[1..]));
    }
  }

  lemma {:induction false} FilledScriptSettled(template: seq<Segment>, files: seq<DataFile>, plotName: string, column: nat)
    requires PlainInputs(template, files, plotName)
    ensures Settled(FilledScript(template, files, plotName, column))
    decreases |template|
  {
    if template != [] {
      var idx := NatToString(column);
      NatToStringDigits(column);
      DigitsNoDollar(idx);
      var s := FilledSegment(template[0], files, plotName, column);
      match template[0] {
        case Text(t) =>
          NoDollarSettled(t);
        case PlotsSlot =>
          var parts := Clauses(files, idx);
          forall k | 0 <= k < |parts| ensures Settled(parts[k]) {
            ClauseSettled(files[k], idx);
          }
          NoDollarSettled(" ");
          JoinSettled(" ", parts);
        case YLabelSlot =>
          var y := Substituted(plotName, '_', ' ');
          forall i | 0 <= i < |y| ensures y[i] != '$' {
            assert plotName[i] in plotName;
          }
      }
      FilledScriptSettled(template[1..], files, plotName, column);
      SettledAppend(s, FilledScript(template[1..], files, plotName, column));
    }
  }

  /** The clause of a file cut around its column, so that the column is a
      chunk of its own. */
  function ClauseChunks(f: DataFile, column: string): seq<string> {
    ["\"" + f.path + USING, column, WITH_TITLE + f.title + CLAUSE_END]
  }

  /** The series list as chunks: the clause chunks of each file, with a
      `" "` chunk between files. */
  function DefsChunks(files: seq<DataFile>, column: string): seq<string>
    decreases |files|
  {
    if files == [] then []
    else if |files| == 1 then ClauseChunks(files[0], column)
    else ClauseChunks(files[0], column) + [" "] + DefsChunks(files[1..], column)
  }

  lemma ConcatClauseChunks(f: DataFile, column: string)
    ensures Concat(ClauseChunks(f, column)) == Clause(f, column)
  {
    var c := ClauseChunks(f, column);
    assert Concat([c[2]]) == c[2] by {
      assert [c[2]][1..] == [];
    }
    assert Concat([c[1], c[2]]) == c[1] + c[2] by {
      assert [c[1], c[2]][1..] == [c[2]];
    }
    assert c[1..] == [c[1], c[2]];
  }

  lemma {:induction false} DefsChunksText(files: seq<DataFile>, column: string)
    ensures Concat(DefsChunks(files, column)) == Join(" ", Clauses(files, column))
    decreases |files|
  {
    if files != [] {
      ConcatClauseChunks(files[0], column);
      if |files| > 1 {
        var head := ClauseChunks(files[0], column);
        DefsChunksText(files[1..], column);
        assert Clauses(files[1..], column) == Clauses(files, column)[1..];
        ConcatAppend(head + [" "], DefsChunks(files[1..], column));
        ConcatAppend(head, [" "]);
        assert Concat([" "]) == " " + Concat([]);
      }
    }
  }

  /** Every chunk is settled text or a placeholder. */
  predicate Tidy(chunks: seq<string>) {
    forall i :: 0 <= i < |chunks| ==> Settled(chunks[i]) || Placeholder(chunks[i])
  }

  lemma PlaceholdersInert(q: string, p: string)
    requires Placeholder(q) && Placeholder(p) && q != p
    ensures Inert(q, p)
  {
  }

  lemma TidyChunked(chunks: seq<string>, p: string)
    requires Tidy(chunks) && Placeholder(p)
    ensures Chunked(chunks, p)
  {
    forall i | 0 <= i < |chunks|
      ensures chunks[i] == p || Inert(chunks[i], p)
    {
      if Settled(chunks[i]) {
        SettledInert(chunks[i], p);
      } else if chunks[i] != p {
        PlaceholdersInert(chunks[i], p);
      }
    }
  }

  lemma {:induction false} ExpandTidy(chunks: seq<string>, pat: string, rep: seq<string>)
    requires Tidy(chunks) && Tidy(rep)
    ensures Tidy(Expand(chunks, pat, rep))
    decreases |chunks|
  {
    if chunks != [] {
      ExpandTidy(chunks[1..], pat, rep);
      var first := if chunks[0] == pat then rep else [chunks[0]];
      var e := Expand(chunks, pat, rep);
      assert e == first + Expand(chunks[1..], pat, rep);
      forall i | 0 <= i < |e| ensures Settled(e[i]) || Placeholder(e[i]) {
        if i >= |first| {
          assert e[i] == Expand(chunks[1..], pat, rep)[i - |first|];
        }
      }
    }
  }

  /** Every chunk is settled text or `column`. */
  predicate SettledBut(chunks: seq<string>, column: string) {
    forall i :: 0 <= i < |chunks| ==> Settled(chunks[i]) || chunks[i] == column
  }

  /** Every chunk of the series list is settled text or the column. */
  lemma {:induction false} DefsChunksShape(files: seq<DataFile>, column: string)
    requires forall k :: 0 <= k < |files| ==> NoDollar(files[k].path) && NoDollar(files[k].title)
    ensures SettledBut(DefsChunks(files, column), column)
    decreases |files|
  {
    if files != [] {
      var f := files[0];
      NoDollarSettled("\"");
      NoDollarSettled(f.path);
      NoDollarSettled(WITH_TITLE);
      NoDollarSettled(f.title);
      NoDollarSettled(CLAUSE_END);
      assert Settled(USING);
      SettledAppend("\"", f.path);
      SettledAppend("\"" + f.path, USING);
      SettledAppend(WITH_TITLE, f.title);
      SettledAppend(WITH_TITLE + f.title, CLAUSE_END);
      var head := ClauseChunks(f, column);
      assert Settled(head[0]) && head[1] == column && Settled(head[2]);
      if |files| > 1 {
        DefsChunksShape(files[1..], column);
        NoDollarSettled(" ");
        var d := DefsChunks(files, column);
        var rest := DefsChunks(files[1..], column);
        assert d == head + [" "] + rest;
        forall i | 0 <= i < |d| ensures Settled(d[i]) || d[i] == column {
          if i < |head| {
            assert d[i] == head[i];
            assert i == 0 || i == 1 || i == 2;
          } else if i == |head| {
            assert d[i] == " ";
          } else {
            assert d[i] == rest[i - |head| - 1];
          }
        }
      }
    }
  }

  /** Placeholders are not settled text (their `$` is not followed by `0`),
      and so never equal a settled chunk. */
  lemma PlaceholderUnsettled(p: string)
    requires Placeholder(p)
    ensures !Settled(p)
  {
    assert p[0] == '$' && p[1] != '0';
  }

  lemma {:induction false} ExpandDefsColumn(files: seq<DataFile>, column: string)
    requires Settled(column)
    ensures Expand(DefsChunks(files, COLUMN_IDX_VAR), COLUMN_IDX_VAR, [column]) == DefsChunks(files, column)
    decreases |files|
  {
    if files != [] {
      var f := files[0];
      var head := ClauseChunks(f, COLUMN_IDX_VAR);
      assert head[0][0] == '"' && head[2][0] == ' ';
      assert Expand(head, COLUMN_IDX_VAR, [column]) == ClauseChunks(f, column) by {
        assert head == [head[0]] + [COLUMN_IDX_VAR] + [head[2]];
        ExpandAppend([head[0]] + [COLUMN_IDX_VAR], [head[2]], COLUMN_IDX_VAR, [column]);
        ExpandAppend([head[0]], [COLUMN_IDX_VAR], COLUMN_IDX_VAR, [column]);
      }
      if |files| > 1 {
        ExpandDefsColumn(files[1..], column);
        ExpandAppend(head + [" "], DefsChunks(files[1..], COLUMN_IDX_VAR), COLUMN_IDX_VAR, [column]);
        ExpandAppend(head, [" "], COLUMN_IDX_VAR, [column]);
      }
    }
  }

  /** The template chunks after the three replacements, segment by segment. */
  function FilledChunks(template: seq<Segment>, files: seq<DataFile>, idx: string, ylabel: string): seq<string>
    decreases |template|
  {
    if template == [] then []
    else
      var first := match template[0]
        case Text(t) => [t]
        case PlotsSlot => DefsChunks(files, idx)
        case YLabelSlot => [ylabel];
      first + FilledChunks(template[1..], files, idx, ylabel)
  }

  function Stages(chunks: seq<string>, files: seq<DataFile>, idx: string, ylabel: string): seq<string> {
    Expand(Expand(Expand(chunks, PLOTS_VAR, DefsChunks(files, COLUMN_IDX_VAR)), COLUMN_IDX_VAR, [idx]), YLABEL_VAR, [ylabel])
  }

  lemma StagesAppend(a: seq<string>, b: seq<string>, files: seq<DataFile>, idx: string, ylabel: string)
    ensures Stages(a + b, files, idx, ylabel) == Stages(a, files, idx, ylabel) + Stages(b, files, idx, ylabel)
  {
    var d := DefsChunks(files, COLUMN_IDX_VAR);
    ExpandAppend(a, b, PLOTS_VAR, d);
    var a1 := Expand(a, PLOTS_VAR, d);
    var b1 := Expand(b, PLOTS_VAR, d);
    ExpandAppend(a1, b1, COLUMN_IDX_VAR, [idx]);
    ExpandAppend(Expand(a1, COLUMN_IDX_VAR, [idx]), Expand(b1, COLUMN_IDX_VAR, [idx]), YLABEL_VAR, [ylabel]);
  }

  lemma StagesOfPlotsSlot(files: seq<DataFile>, idx: string, ylabel: string)
    requires forall k :: 0 <= k < |files| ==> NoDollar(files[k].path) && NoDollar(files[k].title)
    requires NoDollar(idx)
    ensures Stages([PLOTS_VAR], files, idx, ylabel) == DefsChunks(files, idx)
  {
    var d := DefsChunks(files, COLUMN_IDX_VAR);
    assert Expand([PLOTS_VAR], PLOTS_VAR, d) == d;
    NoDollarSettled(idx);
    ExpandDefsColumn(files, idx);
    DefsChunksShape(files, idx);
    var filled := DefsChunks(files, idx);
    PlaceholderUnsettled(YLABEL_VAR);
    assert YLABEL_VAR !in filled;
  }

  lemma {:induction false} StagesPerSegment(template: seq<Segment>, files: seq<DataFile>, idx: string, ylabel: string)
    requires forall i :: 0 <= i < |template| && template[i].Text? ==> NoDollar(template[i].text)
    requires forall k :: 0 <= k < |files| ==> NoDollar(files[k].path) && NoDollar(files[k].title)
    requires NoDollar(idx)
    ensures Stages(TemplateChunks(template), files, idx, ylabel) == FilledChunks(template, files, idx, ylabel)
    decreases |template|
  {
    if template != [] {
      var chunks := TemplateChunks(template);
      assert chunks == [SegmentChunk(template[0])] + TemplateChunks(template[1..]);
      StagesAppend([SegmentChunk(template[0])], TemplateChunks(template[1..]), files, idx, ylabel);
      StagesPerSegment(template[1..], files, idx, ylabel);
      var d := DefsChunks(files, COLUMN_IDX_VAR);
      match template[0] {
        case Text(t) =>
          assert PLOTS_VAR[0] == '$' && COLUMN_IDX_VAR[0] == '$' && YLABEL_VAR[0] == '$';
          assert t != PLOTS_VAR && t != COLUMN_IDX_VAR && t != YLABEL_VAR by {
            if |t| > 0 {
              assert t[0] in t;
            }
          }
        case PlotsSlot =>
          StagesOfPlotsSlot(files, idx, ylabel);
        case YLabelSlot =>
          assert Expand([YLABEL_VAR], PLOTS_VAR, d) == [YLABEL_VAR];
      }
    }
  }

  lemma {:induction false} ConcatFilledChunks(template: seq<Segment>, files: seq<DataFile>, plotName: string, column: nat)
    ensures Concat(FilledChunks(template, files, NatToString(column), Substituted(plotName, '_', ' ')))
      == FilledScript(template, files, plotName, column)
    decreases |template|
  {
    if template != [] {
      var idx := NatToString(column);
      var ylabel := Substituted(plotName, '_', ' ');
      ConcatFilledChunks(template[1..], files, plotName, column);
      var rest := FilledChunks(template[1..], files, idx, ylabel);
      match template[0] {
        case Text(t) =>
          ConcatAppend([t], rest);
          assert Concat([t]) == t + Concat([]);
        case PlotsSlot =>
          ConcatAppend(DefsChunks(files, idx), rest);
          DefsChunksText(files, idx);
        case YLabelSlot =>
          ConcatAppend([ylabel], rest);
          assert Concat([ylabel]) == ylabel + Concat([]);
      }
    }
  }

  lemma TemplateChunksTidy(template: seq<Segment>)
    requires forall i :: 0 <= i < |template| && template[i].Text? ==> NoDollar(template[i].text)
    ensures Tidy(TemplateChunks(template))
  {
  }

  /** One replacement stage on tidy chunks, stated on the text. */
  lemma Stage(chunks: seq<string>, p: string, rep: seq<string>)
    requires Tidy(chunks) && Tidy(rep) && Placeholder(p)
    ensures ReplaceAll(Concat(chunks), p, Concat(rep)) == Concat(Expand(chunks, p, rep))
    ensures Tidy(Expand(chunks, p, rep))
  {
    TidyChunked(chunks, p);
    ReplaceAllChunks(chunks, p, rep);
    ExpandTidy(chunks, p, rep);
  }

  /** The template after `$PLOTS` is replaced, as chunks. */
  function AfterPlots(template: seq<Segment>, files: seq<DataFile>): seq<string> {
    Expand(TemplateChunks(template), PLOTS_VAR, DefsChunks(files, COLUMN_IDX_VAR))
  }

  lemma PlotsStage(template: seq<Segment>, files: seq<DataFile>)
    requires forall i :: 0 <= i < |template| && template[i].Text? ==> NoDollar(template[i].text)
    requires forall k :: 0 <= k < |files| ==> NoDollar(files[k].path) && NoDollar(files[k].title)
    ensures ReplaceAll(TemplateText(template), PLOTS_VAR, PlotDefs(files)) == Concat(AfterPlots(template, files))
    ensures Tidy(AfterPlots(template, files))
  {
    TemplateChunksTidy(template);
    DefsChunksShape(files, COLUMN_IDX_VAR);
    DefsChunksText(files, COLUMN_IDX_VAR);
    Stage(TemplateChunks(template), PLOTS_VAR, DefsChunks(files, COLUMN_IDX_VAR));
  }

  lemma SingleChunkStage(chunks: seq<string>, p: string, rep: string)
    requires Tidy(chunks) && Placeholder(p) && Settled(rep)
    ensures ReplaceAll(Concat(chunks), p, rep) == Concat(Expand(chunks, p, [rep]))
    ensures Tidy(Expand(chunks, p, [rep]))
  {
    assert Concat([rep]) == rep by {
      assert [rep][1..] == [];
    }
    Stage(chunks, p, [rep]);
  }

  /** The replacement chain of `main` fills the template exactly as stated
      directly: every `$PLOTS` becomes the series list, every `$COLUMN_IDX`
      inside it the plotted column, and `$YLABEL` the plot name with
      underscores turned into spaces. */
  lemma ScriptIsFilledTemplate(template: seq<Segment>, files: seq<DataFile>, plotName: string, column: nat)
    requires PlainInputs(template, files, plotName)
    ensures GnuplotScript(template, files, plotName, column) == FilledScript(template, files, plotName, column)
  {
    var idx := NatToString(column);
    NatToStringDigits(column);
    DigitsNoDollar(idx);
    NoDollarSettled(idx);
    var ylabel := Substituted(plotName, '_', ' ');
    ReplaceCharIsSubstitution(plotName, '_', ' ');
    NoDollarSettled(plotName);
    assert Settled(ylabel) by {
      forall i | 0 <= i < |ylabel| ensures ylabel[i] != '$' {
        assert plotName[i] in plotName;
      }
      NoDollarSettled(ylabel);
    }
    PlotsStage(template, files);
    var c1 := AfterPlots(template, files);
    SingleChunkStage(c1, COLUMN_IDX_VAR, idx);
    var c2 := Expand(c1, COLUMN_IDX_VAR, [idx]);
    SingleChunkStage(c2, YLABEL_VAR, ylabel);
    StagesPerSegment(template, files, idx, ylabel);
    ConcatFilledChunks(template, files, plotName, column);
  }
  /** After the three replacements no placeholder is left in the script. */
  lemma NoPlaceholdersRemain(template: seq<Segment>, files: seq<DataFile>, plotName: string, column: nat, p: string, i: nat)
    requires PlainInputs(template, files, plotName) && Placeholder(p)
    ensures !OccursAt(GnuplotScript(template, files, plotName, column), p, i)
  {
    ScriptIsFilledTemplate(template, files, plotName, column);
    FilledScriptSettled(template, files, plotName, column);
    SettledHasNoPlaceholder(FilledScript(template, files, plotName, column), p, i);
  }

  /** A plot: its name, which is also its y-label once underscores become
      spaces, and the 1-based column it draws. */
  datatype Plot = Plot(name: string, column: nat)

  /** `PLOTS`: the raw columns the transform sums, the Wasm-pages column,
      and the three running totals the transform appends. */
  const PLOTS: seq<Plot> := [
    Plot("instructions", CumulativeColumns.INSTRUCTIONS_COL_IDX),
    Plot("accessed_host_pages", CumulativeColumns.ACCESSED_HOST_PAGES_COL_IDX),
    Plot("dirtied_host_pages", CumulativeColumns.DIRTIED_HOST_PAGES_COL_IDX),
    Plot("total_Wasm_pages_in_use", 6),
    Plot("total_instructions", 7),
    Plot("total_accessed_host_pages", 8),
    Plot("total_dirtied_host_pages", 9)
  ]

  /** The number of columns of a drun CSV: the catalogue plots its sixth
      column and expects the three totals in columns 7 to 9. */
  const DRUN_COLUMNS: nat := 6

  /** `FILES`: each input CSV with the title of its series. */
  const FILES: seq<(string, string)> := [
    ("master_copying_gc.csv", "Simple scheduling"),
    ("scheduling.csv", "Smart scheduling")
  ]

  /** The transformed files as `main` passes them to `plot_defs`: the
      temporary path written for each input, with that input's title. */
  function MainFiles(paths: seq<string>): (files: seq<DataFile>)
    requires |paths| == |FILES|
    ensures |files| == |FILES|
    ensures forall j :: 0 <= j < |files| ==> files[j].path == paths[j] && files[j].title == FILES[j].1
  {
    seq(|FILES|, j requires 0 <= j < |FILES| => DataFile(paths[j], FILES[j].1))
  }

  /** The last three plots draw the appended columns: in a record of a drun
      CSV, plot `k` reads the running total of the raw column plotted by
      plot `k - 4`, summed over the output records so far. */
  lemma TotalPlotsShowRunningSums(rs: seq<CumulativeColumns.Record>, i: nat, k: nat)
    requires CumulativeColumns.Walk(rs).Ok? && i < |rs| && |rs[i]| == DRUN_COLUMNS
    requires 4 <= k < |PLOTS|
    ensures
      var out := CumulativeColumns.Walk(rs).value.records;
      && 1 <= PLOTS[k].column <= |out[i]|
      && CumulativeColumns.Value(out[i][PLOTS[k].column - 1])
        == CumulativeColumns.ColumnSum(out[..i + 1], PLOTS[k - 4].column - 1)
  {
    CumulativeColumns.AppendedFieldValue(rs, i, k - 4);
    assert PLOTS[k].column == DRUN_COLUMNS + 1 + (k - 4);
    assert PLOTS[k - 4].column == CumulativeColumns.INSTRUCTIONS_COL_IDX + (k - 4);
  }

  /** On the header of a drun CSV, each of the last three plots is named
      after the column it draws: its y-label is that column's label. */
  lemma TotalPlotsNameTheirColumns(header: CumulativeColumns.Record, k: nat)
    requires |header| == DRUN_COLUMNS && 4 <= k < |PLOTS|
    ensures
      var labels := header + CumulativeColumns.TOTAL_LABELS;
      && 1 <= PLOTS[k].column <= |labels|
      && labels[PLOTS[k].column - 1] == Substituted(PLOTS[k].name, '_', ' ')
  {
  }

  /** The scripts `main` builds: for every plot of the catalogue and any
      temporary paths free of `$`, the replacement chain fills the template
      exactly as stated directly, and leaves no placeholder behind. */
  lemma MainScriptsFilled(styling: string, paths: seq<string>, k: nat, p: string, i: nat)
    requires NoDollar(styling)
    requires |paths| == |FILES| && forall j :: 0 <= j < |paths| ==> NoDollar(paths[j])
    requires k < |PLOTS| && Placeholder(p)
    ensures
      var script := GnuplotScript(GnuplotTemplate(styling), MainFiles(paths), PLOTS[k].name, PLOTS[k].column);
      && script == FilledScript(GnuplotTemplate(styling), MainFiles(paths), PLOTS[k].name, PLOTS[k].column)
      && !OccursAt(script, p, i)
  {
    MainInputsPlain(styling, paths, k);
    NoPlaceholdersRemain(GnuplotTemplate(styling), MainFiles(paths), PLOTS[k].name, PLOTS[k].column, p, i);
    ScriptIsFilledTemplate(GnuplotTemplate(styling), MainFiles(paths), PLOTS[k].name, PLOTS[k].column);
  }

  /** The template's text, the titles in `FILES` and the plot names contain
      no `$`. */
  lemma MainInputsPlain(styling: string, paths: seq<string>, k: nat)
    requires NoDollar(styling)
    requires |paths| == |FILES| && forall j :: 0 <= j < |paths| ==> NoDollar(paths[j])
    requires k < |PLOTS|
    ensures PlainInputs(GnuplotTemplate(styling), MainFiles(paths), PLOTS[k].name)
  {
    TemplatePlain(styling);
    assert NoDollar(FILES[0].1) && NoDollar(FILES[1].1);
    PlotNamePlain(k);
  }

  lemma TemplatePlain(styling: string)
    requires NoDollar(styling)
    ensures var template := GnuplotTemplate(styling);
      forall j :: 0 <= j < |template| && template[j].Text? ==> NoDollar(template[j].text)
  {
    assert NoDollar("\n") && NoDollar("set xlabel \"call\"\nset ylabel \"");
    assert NoDollar("\"\n\nset xrange [0:1000]\n\nplot ");
  }

  lemma PlotNamePlain(k: nat)
    requires k < |PLOTS|
    ensures NoDollar(PLOTS[k].name)
  {
    InputColumnNamesPlain();
    WasmPagesNamePlain();
    RunningTotalNamesPlain();
    var name := PLOTS[k].name;
    if k == 0 {
      assert name == "instructions";
    } else if k == 1 {
      assert name == "accessed_host_pages";
    } else if k == 2 {
      assert name == "dirtied_host_pages";
    } else if k == 3 {
      assert name == "total_Wasm_pages_in_use";
    } else if k == 4 {
      assert name == "total_instructions";
    } else if k == 5 {
      assert name == "total_accessed_host_pages";
    } else {
      assert name == "total_dirtied_host_pages";
    }
  }

  /** The names of plots 1 to 3, which draw the input columns. */
  lemma InputColumnNamesPlain()
    ensures NoDollar("instructions") && NoDollar("accessed_host_pages") && NoDollar("dirtied_host_pages")
  {
  }

  /** The name of plot 4, which draws the Wasm pages column. */
  lemma WasmPagesNamePlain()
    ensures NoDollar("total_Wasm_pages_in_use")
  {
  }

  /** The names of plots 5 to 7, which draw the running totals. */
  lemma RunningTotalNamesPlain()
    ensures NoDollar("total_instructions") && NoDollar("total_accessed_host_pages")
    ensures NoDollar("total_dirtied_host_pages")
  {
  }
}
