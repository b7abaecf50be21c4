/**
 * The label dashboard: splitting a market analysis into titled sections and
 * rendering their lines, the fallback artist profile and its id slug, the
 * trend heatmap and its in-place sort, and the loading/result cells of the
 * scouting, market-analysis and deal-memo tabs.
 */
module LabelHub {
  import opened Common
  import opened Types
  import JsText
  import MockData

  // ----- Splitting the analysis text on `###\s(.+)` -----

  /**
   * The regular expression `###\s(.+)` matches at `q`: three '#', one white-space
   * character, and at least one character that is not a line terminator.
   */
  predicate HeadingAt(s: string, q: nat) {
    q + 5 <= |s| && s[q] == '#' && s[q + 1] == '#' && s[q + 2] == '#'
    && JsText.IsSpace(s[q + 3]) && !JsText.IsLineTerminator(s[q + 4])
  }

  /** Where the greedy `.+` starting at `j` stops: the next line terminator, or the end. */
  function LineEnd(s: string, j: nat): (e: nat)
    requires j <= |s|
    ensures j <= e <= |s|
    ensures forall k :: j <= k < e ==> !JsText.IsLineTerminator(s[k])
    ensures e < |s| ==> JsText.IsLineTerminator(s[e])
    decreases |s| - j
  {
    if j == |s| || JsText.IsLineTerminator(s[j]) then j else LineEnd(s, j + 1)
  }

  /**
   * The splitting loop of `String.prototype.split` with a regular expression:
   * `p` is the end of the last match, `q` the position tried next. Each match
   * contributes the text before it and the captured heading text.
   */
  function SplitFrom(s: string, p: nat, q: nat): (parts: seq<string>)
    requires p <= q <= |s|
    ensures |parts| % 2 == 1
    ensures forall k :: 0 <= k < |parts| && k % 2 == 1 ==> parts[k] != [] && !JsText.IsLineTerminator(parts[k][0])
    ensures JsText.IsBlank(s) ==> forall k :: 0 <= k < |parts| ==> JsText.IsBlank(parts[k])
    decreases |s| - q
  {
    if q == |s| then [s[p..]]
    else if HeadingAt(s, q) then
      var e := LineEnd(s, q + 4);
      [s[p..q], s[q + 4..e]] + SplitFrom(s, e, e)
    else SplitFrom(s, p, q + 1)
  }

  /** `text.split(/###\s(.+)/)`. */
  function SplitHeadings(text: string): seq<string> {
    SplitFrom(text, 0, 0)
  }

  /** `parts.filter(part => part && part.trim() !== '')`. */
  function NonBlank(parts: seq<string>): (r: seq<string>)
    ensures |r| <= |parts|
    ensures forall k :: 0 <= k < |r| ==> !JsText.IsBlank(r[k])
    ensures forall x :: x in r ==> x in parts
  {
    if parts == [] then []
    else if JsText.IsBlank(parts[0]) then NonBlank(parts[1..])
    else [parts[0]] + NonBlank(parts[1..])
  }

  /** The filter keeps every non-blank part. */
  lemma {:induction false} NonBlankKeeps(parts: seq<string>, x: string)
    requires x in parts && !JsText.IsBlank(x)
    ensures x in NonBlank(parts)
  {
    if parts[0] != x {
      NonBlankKeeps(parts[1..], x);
    }
  }

  /** A titled panel of the market report. */
  datatype Section = Section(title: string, content: string)

  const OverviewTitle := "Market Overview"

  /** Consecutive parts taken two by two as (title, content), both trimmed; an odd last part is left over. */
  function Pairs(parts: seq<string>): (r: seq<Section>)
    ensures |r| == |parts| / 2
    ensures forall k :: 0 <= k < |r| ==> r[k] == Section(JsText.Trim(parts[2 * k]), JsText.Trim(parts[2 * k + 1]))
  {
    seq(|parts| / 2, k requires 0 <= k < |parts| / 2 => Section(JsText.Trim(parts[2 * k]), JsText.Trim(parts[2 * k + 1])))
  }

  /**
   * The sections the report shows for the non-blank parts: a lone part is the
   * market overview; otherwise parts pair up as title and content.
   */
  function Layout(parts: seq<string>): (r: seq<Section>)
    ensures |parts| == 0 ==> r == []
    ensures |parts| == 1 ==> r == [Section(OverviewTitle, JsText.Trim(parts[0]))]
    ensures |parts| >= 2 ==> r == Pairs(parts)
    ensures |r| <= (|parts| + 1) / 2
  {
    if |parts| == 1 then [Section(OverviewTitle, JsText.Trim(parts[0]))] else Pairs(parts)
  }

  /** The sections `MarketAnalysisReport` derives from the analysis text. */
  function SectionsOf(text: string): seq<Section> {
    Layout(NonBlank(SplitHeadings(text)))
  }

  /** Pairing the first `i + 2` parts adds one section to pairing the first `i`. */
  lemma PairsGrow(parts: seq<string>, i: nat)
    requires i % 2 == 0 && i + 2 <= |parts|
    ensures Pairs(parts[..i + 2]) == Pairs(parts[..i]) + [Section(JsText.Trim(parts[i]), JsText.Trim(parts[i + 1]))]
  {
    var a := Pairs(parts[..i + 2]);
    var b := Pairs(parts[..i]) + [Section(JsText.Trim(parts[i]), JsText.Trim(parts[i + 1]))];
    assert |a| == |b|;
    forall k | 0 <= k < |a|
      ensures a[k] == b[k]
    {
      if k < i / 2 {
        assert parts[..i + 2][2 * k] == parts[..i][2 * k];
        assert parts[..i + 2][2 * k + 1] == parts[..i][2 * k + 1];
      }
    }
  }

  /** An odd last part adds nothing to the pairing. */
  lemma PairsOddTail(parts: seq<string>)
    requires |parts| % 2 == 1
    ensures Pairs(parts) == Pairs(parts[..|parts| - 1])
  {
    var a := Pairs(parts);
    var b := Pairs(parts[..|parts| - 1]);
    assert |a| == |b|;
    forall k | 0 <= k < |a|
      ensures a[k] == b[k]
    {
    }
  }

  /**
   * `MarketAnalysisReport`'s section loop: after splitting and filtering, step
   * through the parts two at a time, pushing a (title, content) pair when both
   * exist, and a market overview for a lone part when nothing was pushed yet.
   */
  method MarketSections(text: string) returns (sections: seq<Section>)
    ensures sections == SectionsOf(text)
  {
    var parts := NonBlank(SplitHeadings(text));
    sections := [];
    var i := 0;
    while i < |parts|
      invariant i % 2 == 0
      invariant i <= |parts| + 1
      invariant |parts| == 1 && i > 0 ==> sections == [Section(OverviewTitle, JsText.Trim(parts[0]))]
      invariant !(|parts| == 1 && i > 0) ==> sections == Pairs(parts[..if i <= |parts| then i else |parts|])
      invariant |parts| != 1 ==> |sections| == (if i <= |parts| then i else |parts|) / 2
    {
      if i + 1 < |parts| && parts[i] != "" && parts[i + 1] != "" {
        PairsGrow(parts, i);
        sections := sections + [Section(JsText.Trim(parts[i]), JsText.Trim(parts[i + 1]))];
      } else if parts[i] != "" && |sections| == 0 {
        sections := sections + [Section(OverviewTitle, JsText.Trim(parts[i]))];
      } else if i + 1 == |parts| {
        PairsOddTail(parts);
        assert parts[..|parts|][..|parts| - 1] == parts[..i];
      }
      i := i + 2;
    }
    if |parts| >= 2 {
      assert parts[..|parts|] == parts;
    } else if |parts| == 0 {
      assert sections == Pairs([]);
    }
  }

  /** A heading-free stretch of text is skipped by the splitting loop. */
  lemma {:induction false} SplitFromSkip(s: string, p: nat, q: nat, r: nat)
    requires p <= q <= r <= |s|
    requires forall k :: q <= k < r ==> !HeadingAt(s, k)
    ensures SplitFrom(s, p, q) == SplitFrom(s, p, r)
    decreases r - q
  {
    if q < r {
      SplitFromSkip(s, p, q + 1, r);
    }
  }

  /** The splitting loop at a heading emits the text before it and the heading's text. */
  lemma SplitFromHeading(s: string, p: nat, q: nat)
    requires p <= q < |s| && HeadingAt(s, q)
    ensures SplitFrom(s, p, q) == [s[p..q], s[q + 4..LineEnd(s, q + 4)]] + SplitFrom(s, LineEnd(s, q + 4), LineEnd(s, q + 4))
  {
  }

  const TwoHeadings := "### A\nfoo\n### B\nbar"

  /** Where the two-heading report's headings start and their lines end. */
  lemma TwoHeadingsLines()
    ensures HeadingAt(TwoHeadings, 0) && LineEnd(TwoHeadings, 4) == 5
    ensures HeadingAt(TwoHeadings, 10) && LineEnd(TwoHeadings, 14) == 15
  {
    assert LineEnd(TwoHeadings, 4) == 5;
    assert LineEnd(TwoHeadings, 14) == 15;
  }

  /** No heading starts inside the two bodies. */
  lemma TwoHeadingsBodies()
    ensures forall k :: 5 <= k < 10 ==> !HeadingAt(TwoHeadings, k)
    ensures forall k :: 15 <= k < 19 ==> !HeadingAt(TwoHeadings, k)
    ensures |TwoHeadings| == 19
  {
  }

  /** The pieces of the two-heading report the split returns. */
  lemma TwoHeadingsPieces()
    ensures TwoHeadings[0..0] == "" && TwoHeadings[4..5] == "A" && TwoHeadings[5..10] == "\nfoo\n"
    ensures TwoHeadings[14..15] == "B" && TwoHeadings[15..] == "\nbar"
  {
  }

  /** The tail of the two-heading report after its first heading line. */
  lemma TwoHeadingsTail()
    ensures SplitFrom(TwoHeadings, 5, 5) == ["\nfoo\n", "B", "\nbar"]
  {
    TwoHeadingsLines();
    TwoHeadingsBodies();
    TwoHeadingsPieces();
    SplitFromSkip(TwoHeadings, 5, 5, 10);
    SplitFromHeading(TwoHeadings, 5, 10);
    SplitFromSkip(TwoHeadings, 15, 15, 19);
  }

  /** The split of a well-formed report with two headings. */
  lemma TwoHeadingsSplit()
    ensures SplitHeadings(TwoHeadings) == ["", "A", "\nfoo\n", "B", "\nbar"]
  {
    TwoHeadingsLines();
    TwoHeadingsPieces();
    SplitFromHeading(TwoHeadings, 0, 0);
    TwoHeadingsTail();
  }

  /** The non-blank parts of the two-heading split. */
  lemma TwoHeadingsNonBlank()
    ensures NonBlank(["", "A", "\nfoo\n", "B", "\nbar"]) == ["A", "\nfoo\n", "B", "\nbar"]
  {
    var parts := ["", "A", "\nfoo\n", "B", "\nbar"];
    assert !JsText.IsBlank(parts[4]) by { assert !JsText.IsSpace(parts[4][1]); }
    assert NonBlank(parts[4..]) == [parts[4]] + NonBlank([]);
    assert !JsText.IsBlank(parts[3]) by { assert !JsText.IsSpace(parts[3][0]); }
    assert parts[3..][1..] == parts[4..];
    assert NonBlank(parts[3..]) == parts[3..];
    assert !JsText.IsBlank(parts[2]) by { assert !JsText.IsSpace(parts[2][1]); }
    assert parts[2..][1..] == parts[3..];
    assert NonBlank(parts[2..]) == parts[2..];
    assert !JsText.IsBlank(parts[1]) by { assert !JsText.IsSpace(parts[1][0]); }
    assert parts[1..][1..] == parts[2..];
    assert NonBlank(parts[1..]) == parts[1..];
    assert JsText.IsBlank(parts[0]);
  }

  /** The two-heading report's parts, trimmed. */
  lemma TwoHeadingsTrimmed()
    ensures JsText.Trim("A") == "A" && JsText.Trim("B") == "B"
    ensures JsText.Trim("\nfoo\n") == "foo" && JsText.Trim("\nbar") == "bar"
  {
  }

  /** Four parts lay out as two sections. */
  lemma LayoutOfFour(a: string, b: string, c: string, d: string)
    ensures Layout([a, b, c, d]) == [Section(JsText.Trim(a), JsText.Trim(b)), Section(JsText.Trim(c), JsText.Trim(d))]
  {
    var parts := [a, b, c, d];
    assert Pairs(parts)[0] == Section(JsText.Trim(a), JsText.Trim(b));
    assert Pairs(parts)[1] == Section(JsText.Trim(c), JsText.Trim(d));
  }

  /** The example of a well-formed report: two headings, each followed by its body. */
  lemma TwoHeadingsExample()
    ensures SectionsOf(TwoHeadings) == [Section("A", "foo"), Section("B", "bar")]
  {
    TwoHeadingsSplit();
    TwoHeadingsNonBlank();
    TwoHeadingsTrimmed();
    LayoutOfFour("A", "\nfoo\n", "B", "\nbar");
  }

  const MisalignedProse := "Intro\n### A\nfoo"

  /** The one heading of the misaligned report, the text around it and the pieces the split returns. */
  lemma MisalignedProseLines()
    ensures |MisalignedProse| == 15
    ensures HeadingAt(MisalignedProse, 6) && LineEnd(MisalignedProse, 10) == 11
    ensures forall k :: 0 <= k < 6 ==> !HeadingAt(MisalignedProse, k)
    ensures forall k :: 11 <= k < 15 ==> !HeadingAt(MisalignedProse, k)
  {
    assert LineEnd(MisalignedProse, 10) == 11;
  }

  /** The split of prose followed by one heading. */
  lemma MisalignedProseSplit()
    ensures SplitHeadings(MisalignedProse) == ["Intro\n", "A", "\nfoo"]
  {
    MisalignedProseLines();
    SplitFromSkip(MisalignedProse, 0, 0, 6);
    SplitFromHeading(MisalignedProse, 0, 6);
    SplitFromSkip(MisalignedProse, 11, 11, 15);
    assert MisalignedProse[0..6] == "Intro\n" && MisalignedProse[10..11] == "A" && MisalignedProse[11..] == "\nfoo";
  }

  /** Three parts lay out as one section; the third part is dropped. */
  lemma LayoutOfThree(a: string, b: string, c: string)
    ensures Layout([a, b, c]) == [Section(JsText.Trim(a), JsText.Trim(b))]
  {
    assert Pairs([a, b, c])[0] == Section(JsText.Trim(a), JsText.Trim(b));
  }

  /** The non-blank parts of the misaligned split. */
  lemma MisalignedProseNonBlank()
    ensures NonBlank(["Intro\n", "A", "\nfoo"]) == ["Intro\n", "A", "\nfoo"]
  {
    var parts := ["Intro\n", "A", "\nfoo"];
    assert !JsText.IsBlank(parts[2]) by { assert !JsText.IsSpace(parts[2][1]); }
    assert parts[2..][1..] == [];
    assert NonBlank(parts[2..]) == parts[2..];
    assert !JsText.IsBlank(parts[1]) by { assert !JsText.IsSpace(parts[1][0]); }
    assert parts[1..][1..] == parts[2..];
    assert NonBlank(parts[1..]) == parts[1..];
    assert !JsText.IsBlank(parts[0]) by { assert !JsText.IsSpace(parts[0][0]); }
    assert parts[1..] == parts[1..];
  }

  /** Prose before the first heading becomes a title, the heading its content, and the rest is dropped. */
  lemma MisalignedProseExample()
    ensures SectionsOf(MisalignedProse) == [Section("Intro", "A")]
  {
    MisalignedProseSplit();
    MisalignedProseNonBlank();
    LayoutOfThree("Intro\n", "A", "\nfoo");
    assert JsText.Trim("Intro\n") == "Intro";
    assert JsText.Trim("A") == "A";
  }

  /** Non-blank text without any heading is one market overview holding the trimmed text. */
  lemma NoHeadingIsOverview(text: string)
    requires forall q :: 0 <= q < |text| ==> !HeadingAt(text, q)
    requires !JsText.IsBlank(text)
    ensures SectionsOf(text) == [Section(OverviewTitle, JsText.Trim(text))]
  {
    SplitFromSkip(text, 0, 0, |text|);
    assert SplitHeadings(text) == [text[0..]];
    assert text[0..] == text;
    assert NonBlank([text]) == [text];
  }

  /** Every section has a non-blank title and non-blank content, and there are at most half the parts, rounded up. */
  lemma SectionsAreNonBlank(text: string)
    ensures forall k :: 0 <= k < |SectionsOf(text)| ==>
      !JsText.IsBlank(SectionsOf(text)[k].title) && !JsText.IsBlank(SectionsOf(text)[k].content)
    ensures |SectionsOf(text)| <= (|NonBlank(SplitHeadings(text))| + 1) / 2
  {
    var parts := NonBlank(SplitHeadings(text));
    var r := SectionsOf(text);
    forall k | 0 <= k < |r|
      ensures !JsText.IsBlank(r[k].title) && !JsText.IsBlank(r[k].content)
    {
      if |parts| == 1 {
        JsText.TrimKeepsNonBlank(parts[0]);
        assert !JsText.IsSpace(OverviewTitle[0]);
      } else {
        JsText.TrimKeepsNonBlank(parts[2 * k]);
        JsText.TrimKeepsNonBlank(parts[2 * k + 1]);
      }
    }
  }

  /** Once two or more parts exist, a trailing unpaired part is dropped. */
  lemma TrailingPartDropped(parts: seq<string>)
    requires |parts| >= 3 && |parts| % 2 == 1
    ensures Layout(parts) == Layout(parts[..|parts| - 1])
  {
    PairsOddTail(parts);
  }

  /** Blank text yields no section at all. */
  lemma BlankTextHasNoSections(text: string)
    requires JsText.IsBlank(text)
    ensures SectionsOf(text) == []
  {
    var parts := SplitHeadings(text);
    if NonBlank(parts) != [] {
      assert NonBlank(parts)[0] in parts;
    }
  }

  // ----- Rendering section content -----

  /** A rendered line of section content. */
  datatype Line = Bullet(text: string) | Paragraph(text: string)

  /**
   * `renderContent` for one line: a bullet when the trimmed line starts with
   * "- ", nothing for a blank line, and otherwise the line as it stands.
   */
  function RenderLine(line: string): (r: Option<Line>)
    ensures r.None? <==> JsText.IsBlank(line)
    ensures (r.Some? && r.value.Bullet?) <==> "- " <= JsText.Trim(line)
    ensures r.Some? && r.value.Bullet? ==> JsText.Trim(line) == "- " + r.value.text
    ensures r.Some? && r.value.Paragraph? ==> r.value.text == line
  {
    JsText.TrimEmptyIffBlank(line);
    var t := JsText.Trim(line);
    if "- " <= t then
      assert t == t[..2] + t[2..];
      Some(Bullet(t[2..]))
    else if t == "" then None
    else Some(Paragraph(line))
  }

  /** The rendered lines of a list of lines, blank ones dropped. */
  function RenderLines(lines: seq<string>): (r: seq<Line>)
    ensures |r| <= |lines|
  {
    if lines == [] then []
    else
      match RenderLine(lines[0])
      case None => RenderLines(lines[1..])
      case Some(l) => [l] + RenderLines(lines[1..])
  }

  /** `renderContent(content)`: the content split on '\n', each line rendered. */
  function RenderContent(content: string): seq<Line> {
    RenderLines(JsText.SplitOn(content, '\n'))
  }

  function LineTexts(ls: seq<Line>): (r: seq<string>)
    ensures |r| == |ls| && forall k :: 0 <= k < |ls| ==> r[k] == ls[k].text
  {
    seq(|ls|, k requires 0 <= k < |ls| => ls[k].text)
  }

  /** A line that is neither blank nor a bullet. */
  predicate PlainLine(line: string) {
    !JsText.IsBlank(line) && !("- " <= JsText.Trim(line))
  }

  /** A plain line in front renders as a paragraph in front. */
  lemma RenderLinesPlainHead(lines: seq<string>)
    requires lines != [] && PlainLine(lines[0])
    ensures RenderLines(lines) == [Paragraph(lines[0])] + RenderLines(lines[1..])
  {
    assert RenderLine(lines[0]) == Some(Paragraph(lines[0]));
  }

  /** The texts of a list of lines, taken front first. */
  lemma LineTextsCons(l: Line, ls: seq<Line>)
    ensures LineTexts([l] + ls) == [l.text] + LineTexts(ls)
  {
  }

  /** Lines that are neither blank nor bullets render as themselves, in order. */
  lemma {:induction false} PlainLinesRenderVerbatim(lines: seq<string>)
    requires forall k :: 0 <= k < |lines| ==> PlainLine(lines[k])
    ensures LineTexts(RenderLines(lines)) == lines
    ensures forall k :: 0 <= k < |RenderLines(lines)| ==> RenderLines(lines)[k].Paragraph?
  {
    if lines != [] {
      var tail := lines[1..];
      RenderLinesPlainHead(lines);
      assert forall k :: 0 <= k < |tail| ==> tail[k] == lines[k + 1];
      PlainLinesRenderVerbatim(tail);
      LineTextsCons(Paragraph(lines[0]), RenderLines(tail));
      assert lines == [lines[0]] + tail;
    }
  }

  /** Content made only of plain lines is shown in full: joining the paragraphs back with '\n' gives it again. */
  lemma PlainContentRoundTrip(content: string)
    requires forall k :: 0 <= k < |JsText.SplitOn(content, '\n')| ==>
      !JsText.IsBlank(JsText.SplitOn(content, '\n')[k]) && !("- " <= JsText.Trim(JsText.SplitOn(content, '\n')[k]))
    ensures JsText.Join(LineTexts(RenderContent(content)), '\n') == content
  {
    PlainLinesRenderVerbatim(JsText.SplitOn(content, '\n'));
    JsText.JoinSplitOn(content, '\n');
  }

  /** A titled panel of the report view with its rendered lines. */
  datatype Panel = Panel(title: string, lines: seq<Line>)

  /** The report body: one panel per section, or a single "Analysis" panel with the raw text when there is none. */
  function ReportPanels(text: string): (r: seq<Panel>)
    ensures SectionsOf(text) == [] ==> r == [Panel("Analysis", RenderContent(text))]
    ensures SectionsOf(text) != [] ==> |r| == |SectionsOf(text)|
    ensures SectionsOf(text) != [] ==>
      forall k :: 0 <= k < |r| ==> r[k] == Panel(SectionsOf(text)[k].title, RenderContent(SectionsOf(text)[k].content))
  {
    var sections := SectionsOf(text);
    if |sections| > 0 then
      seq(|sections|, k requires 0 <= k < |sections| => Panel(sections[k].title, RenderContent(sections[k].content)))
    else [Panel("Analysis", RenderContent(text))]
  }

  /** Blank analysis text falls back to the single "Analysis" panel. */
  lemma BlankTextFallsBack(text: string)
    requires JsText.IsBlank(text)
    ensures ReportPanels(text) == [Panel("Analysis", RenderContent(text))]
  {
    BlankTextHasNoSections(text);
  }

  // ----- Fallback artist profile -----

  /** The text holds no white space. */
  predicate NoSpace(s: string) {
    forall i :: 0 <= i < |s| ==> !JsText.IsSpace(s[i])
  }

  /** `s.replace(/\s+/g, '-')`: every maximal run of white space becomes one '-'. */
  function DashRuns(s: string): (r: string)
    ensures |r| <= |s|
    ensures forall i :: 0 <= i < |r| ==> !JsText.IsSpace(r[i])
    ensures forall i :: 0 <= i < |r| ==> r[i] == '-' || r[i] in s
    decreases |s|
  {
    if s == [] then []
    else if JsText.IsSpace(s[0]) then
      var t := JsText.TrimStart(s);
      JsText.TrimStartSpec(s);
      assert forall c :: c in t ==> c in s;
      "-" + DashRuns(t)
    else [s[0]] + DashRuns(s[1..])
  }

  /** Leading white space that stops before a non-space is exactly what `trimStart` drops. */
  lemma {:induction false} TrimStartBlankPrefix(w: string, b: string)
    requires JsText.IsBlank(w)
    requires b == [] || !JsText.IsSpace(b[0])
    ensures JsText.TrimStart(w + b) == b
  {
    if w != [] {
      assert (w + b)[0] == w[0];
      assert (w + b)[1..] == w[1..] + b;
      TrimStartBlankPrefix(w[1..], b);
    } else {
      assert w + b == b;
    }
  }

  /** A character that is not white space is copied. */
  lemma DashRunsCons(c: char, t: string)
    requires !JsText.IsSpace(c)
    ensures DashRuns([c] + t) == [c] + DashRuns(t)
  {
    assert ([c] + t)[1..] == t;
  }

  /** Text without white space is copied as it is. */
  lemma {:induction false} DashRunsWord(a: string, b: string)
    requires NoSpace(a)
    ensures DashRuns(a + b) == a + DashRuns(b)
  {
    if a != [] {
      var c, rest := a[0], a[1..];
      assert DashRuns(a + b) == [c] + DashRuns(rest + b) by {
        assert a + b == [c] + (rest + b);
        DashRunsCons(c, rest + b);
      }
      assert DashRuns(rest + b) == rest + DashRuns(b) by {
        DashRunsWord(rest, b);
      }
      assert a == [c] + rest;
    } else {
      assert a + b == b;
    }
  }

  /** Text without white space is left as it is. */
  lemma DashRunsNoSpace(s: string)
    requires NoSpace(s)
    ensures DashRuns(s) == s
  {
    DashRunsWord(s, []);
    assert s + [] == s;
  }

  /** A maximal run of white space, however long, becomes a single '-'. */
  lemma DashRunsRun(w: string, b: string)
    requires |w| > 0 && JsText.IsBlank(w)
    requires b == [] || !JsText.IsSpace(b[0])
    ensures DashRuns(w + b) == "-" + DashRuns(b)
  {
    assert (w + b)[0] == w[0];
    TrimStartBlankPrefix(w, b);
  }

  /** A word, one white-space run and the rest: the word, one '-', and the rest with its runs dashed. */
  lemma DashRunsWordRun(a: string, w: string, b: string)
    requires NoSpace(a)
    requires |w| > 0 && JsText.IsBlank(w)
    requires b == [] || !JsText.IsSpace(b[0])
    ensures DashRuns(a + w + b) == a + "-" + DashRuns(b)
  {
    assert a + w + b == a + (w + b);
    DashRunsWord(a, w + b);
    DashRunsRun(w, b);
  }

  /** The id a profile made up for an unknown artist gets: lower case, white-space runs turned into '-'. */
  function Slug(name: string): (r: string)
    ensures forall i :: 0 <= i < |r| ==> !JsText.IsSpace(r[i])
    ensures forall i :: 0 <= i < |r| ==> !('A' <= r[i] <= 'Z')
  {
    var low := JsText.Lower(name);
    assert forall c :: c in low ==> !('A' <= c <= 'Z');
    DashRuns(low)
  }

  /** Text with one white-space gap between two words: the gap becomes one '-'. */
  lemma DashRunsOneGap(s: string, i: nat, j: nat)
    requires i < j <= |s|
    requires NoSpace(s[..i]) && JsText.IsBlank(s[i..j]) && NoSpace(s[j..])
    ensures DashRuns(s) == s[..i] + "-" + s[j..]
  {
    assert s == s[..i] + s[i..j] + s[j..];
    DashRunsNoSpace(s[j..]);
    DashRunsWordRun(s[..i], s[i..j], s[j..]);
  }

  /** The lower-cased 'Luna  Bloom' in three pieces: a word, a two-space run and a word. */
  lemma LunaBloomPieces(name: string)
    requires name == "Luna  Bloom"
    ensures |JsText.Lower(name)| == 11
    ensures JsText.Lower(name)[..4] == "luna" && NoSpace(JsText.Lower(name)[..4])
    ensures JsText.IsBlank(JsText.Lower(name)[4..6])
    ensures JsText.Lower(name)[6..] == "bloom" && NoSpace(JsText.Lower(name)[6..])
  {
    var low := JsText.Lower(name);
    assert low == "luna  bloom" by {
      forall k | 0 <= k < |name|
        ensures low[k] == "luna  bloom"[k]
      {
      }
    }
  }

  /** A two-word name with a double space between the words: 'Luna  Bloom' becomes 'luna-bloom'. */
  lemma SlugOfTwoWords(name: string, slug: string)
    requires name == "Luna  Bloom" && slug == "luna-bloom"
    ensures Slug(name) == slug
  {
    LunaBloomPieces(name);
    DashRunsOneGap(JsText.Lower(name), 4, 6);
  }

  /** Slugging a slug changes nothing. */
  lemma SlugIdempotent(name: string)
    ensures Slug(Slug(name)) == Slug(name)
  {
    var s := Slug(name);
    assert JsText.Lower(s) == s;
    DashRunsNoSpace(s);
  }

  /**
   * The profile `handleViewArtistProfile` opens: the known profile with that
   * name, or one made up from the name, the genre filter and two random draws.
   */
  function ProfileForName(name: string, genreFilter: string, randomListeners: nat, randomSaves: nat): (p: ArtistProfileData)
    ensures MockData.GetArtistProfile(name).Some? ==> p == MockData.GetArtistProfile(name).value
    ensures MockData.GetArtistProfile(name).None? ==>
      && p.id == Slug(name) && p.name == name && p.genre == genreFilter && p.location == "Unknown"
      && p.imageUrl == "https://i.pravatar.cc/150?u=" + DashRuns(name)
  {
    match MockData.GetArtistProfile(name)
    case Some(known) => known
    case None =>
      ArtistProfileData(Slug(name), name, genreFilter, "Unknown", "https://i.pravatar.cc/150?u=" + DashRuns(name),
                        randomListeners, randomSaves)
  }

  // ----- Trend heatmap -----

  const MockTrends: seq<GenreTrend> := [
    GenreTrend("Hyperpop", 45),
    GenreTrend("Afro-Soul", 32),
    GenreTrend("Synthwave", 18),
    GenreTrend("Phonk", 65),
    GenreTrend("Indie Sleaze", -5)
  ]

  /** How one bar of the heatmap is drawn. */
  datatype HeatmapView = HeatmapView(widthPercent: nat, positiveColour: bool, caption: string)

  /** `HeatmapBar`: bar width |growth| percent, positive colour and '+' only for growth above zero. */
  function HeatmapBar(t: GenreTrend): (v: HeatmapView)
    ensures v.widthPercent == (if t.growth < 0 then -t.growth else t.growth)
    ensures v.positiveColour <==> t.growth > 0
    ensures |v.caption| >= 2
    ensures v.caption[0] == '+' <==> t.growth > 0
    ensures v.caption[|v.caption| - 1] == '%'
  {
    var text := JsText.IntToString(t.growth);
    if t.growth > 0 then
      HeatmapView(t.growth, true, "+" + text + "%")
    else
      HeatmapView(if t.growth < 0 then -t.growth else 0, false, text + "%")
  }

  /**
   * The caption reads back as the growth: after the sign ('+', '-' or none
   * for zero) come the decimal digits of its magnitude, then '%'.
   */
  lemma HeatmapCaptionReadsBack(t: GenreTrend)
    ensures var c := HeatmapBar(t).caption;
      var digits := if t.growth == 0 then c[..|c| - 1] else c[1..|c| - 1];
      && (t.growth < 0 ==> c[0] == '-')
      && (forall i :: 0 <= i < |digits| ==> JsText.IsDigit(digits[i]))
      && JsText.DigitsValue(digits) == (if t.growth < 0 then -t.growth else t.growth)
  {
    var m: nat := if t.growth < 0 then -t.growth else t.growth;
    JsText.NatToStringRoundTrip(m);
    var c := HeatmapBar(t).caption;
    if t.growth == 0 {
      assert c[..|c| - 1] == JsText.NatToString(m);
    } else {
      assert c[1..|c| - 1] == JsText.NatToString(m);
    }
  }

  /** A zero growth bar is empty, negative-coloured and carries no sign. */
  lemma ZeroGrowthBar(genre: string)
    ensures HeatmapBar(GenreTrend(genre, 0)) == HeatmapView(0, false, "0%")
  {
  }

  /** Descending by growth, the order `(a, b) => b.growth - a.growth` asks for. */
  predicate SortedByGrowth(s: seq<GenreTrend>) {
    forall i, j :: 0 <= i < j < |s| ==> s[i].growth >= s[j].growth
  }

  /** Insert `x` after every element whose growth is at least its own, scanning from the back. */
  function InsertTrend(x: GenreTrend, s: seq<GenreTrend>): (r: seq<GenreTrend>)
    ensures |r| == |s| + 1
    decreases |s|
  {
    if s == [] || s[|s| - 1].growth >= x.growth then s + [x]
    else InsertTrend(x, s[..|s| - 1]) + [s[|s| - 1]]
  }

  /** Insertion adds exactly the one element. */
  lemma {:induction false} InsertTrendPermutes(x: GenreTrend, s: seq<GenreTrend>)
    ensures multiset(InsertTrend(x, s)) == multiset(s) + multiset{x}
    decreases |s|
  {
    if s != [] && s[|s| - 1].growth < x.growth {
      InsertTrendPermutes(x, s[..|s| - 1]);
      assert s == s[..|s| - 1] + [s[|s| - 1]];
    }
  }

  /** The smallest growth in a sorted list after `x` is inserted into it. */
  function MinGrowth(x: GenreTrend, s: seq<GenreTrend>): int {
    if s != [] && s[|s| - 1].growth < x.growth then s[|s| - 1].growth else x.growth
  }

  /** Inserting into a sorted list keeps it sorted. */
  lemma {:induction false} InsertTrendSorted(x: GenreTrend, s: seq<GenreTrend>)
    requires SortedByGrowth(s)
    ensures SortedByGrowth(InsertTrend(x, s))
    ensures forall k :: 0 <= k < |InsertTrend(x, s)| ==> InsertTrend(x, s)[k].growth >= MinGrowth(x, s)
    decreases |s|
  {
    if s != [] && s[|s| - 1].growth < x.growth {
      var init := s[..|s| - 1];
      var last := s[|s| - 1];
      InsertTrendSorted(x, init);
      var r' := InsertTrend(x, init);
      assert InsertTrend(x, s) == r' + [last];
      assert forall k :: 0 <= k < |r'| ==> r'[k].growth >= last.growth by {
        if init != [] { assert init[|init| - 1] == s[|s| - 2]; }
      }
    }
  }

  /** `Array.prototype.sort` with the descending-growth comparator: a stable insertion sort. */
  function SortByGrowth(s: seq<GenreTrend>): seq<GenreTrend>
    decreases |s|
  {
    if s == [] then []
    else InsertTrend(s[|s| - 1], SortByGrowth(s[..|s| - 1]))
  }

  /** The sort yields a descending-growth permutation of its input. */
  lemma {:induction false} SortByGrowthSpec(s: seq<GenreTrend>)
    ensures |SortByGrowth(s)| == |s|
    ensures multiset(SortByGrowth(s)) == multiset(s)
    ensures SortedByGrowth(SortByGrowth(s))
    decreases |s|
  {
    if s != [] {
      assert s == s[..|s| - 1] + [s[|s| - 1]];
      SortByGrowthSpec(s[..|s| - 1]);
      InsertTrendPermutes(s[|s| - 1], SortByGrowth(s[..|s| - 1]));
      InsertTrendSorted(s[|s| - 1], SortByGrowth(s[..|s| - 1]));
    }
  }

  /** Sorting an already sorted list leaves it exactly as it is: the sort is stable. */
  lemma {:induction false} SortKeepsSorted(s: seq<GenreTrend>)
    requires SortedByGrowth(s)
    ensures SortByGrowth(s) == s
    decreases |s|
  {
    if s != [] {
      var init := s[..|s| - 1];
      SortKeepsSorted(init);
      assert s == init + [s[|s| - 1]];
    }
  }

  /** The heatmap re-sorts the shared trend list on every render; every sort after the first changes nothing. */
  lemma ResortIsIdentity(s: seq<GenreTrend>)
    ensures SortByGrowth(SortByGrowth(s)) == SortByGrowth(s)
  {
    SortByGrowthSpec(s);
    SortKeepsSorted(SortByGrowth(s));
  }

  /** The trends with growth `g`, in the order they occur. */
  function WithGrowth(s: seq<GenreTrend>, g: int): (r: seq<GenreTrend>)
    ensures |r| <= |s|
    ensures forall k :: 0 <= k < |r| ==> r[k].growth == g
  {
    if s == [] then []
    else (if s[0].growth == g then [s[0]] else []) + WithGrowth(s[1..], g)
  }

  /** Selecting by growth works piece by piece. */
  lemma {:induction false} WithGrowthConcat(a: seq<GenreTrend>, b: seq<GenreTrend>, g: int)
    ensures WithGrowth(a + b, g) == WithGrowth(a, g) + WithGrowth(b, g)
  {
    if a == [] {
      assert a + b == b;
    } else {
      assert (a + b)[0] == a[0];
      assert (a + b)[1..] == a[1..] + b;
      WithGrowthConcat(a[1..], b, g);
    }
  }

  /** Inserting `x` puts it behind every trend of equal growth already there. */
  lemma {:induction false} InsertTrendStable(x: GenreTrend, s: seq<GenreTrend>, g: int)
    ensures WithGrowth(InsertTrend(x, s), g) == WithGrowth(s, g) + WithGrowth([x], g)
    decreases |s|
  {
    if s == [] || s[|s| - 1].growth >= x.growth {
      WithGrowthConcat(s, [x], g);
    } else {
      var init, last := s[..|s| - 1], s[|s| - 1];
      assert s == init + [last];
      assert InsertTrend(x, s) == InsertTrend(x, init) + [last];
      InsertTrendStable(x, init, g);
      WithGrowthConcat(InsertTrend(x, init), [last], g);
      WithGrowthConcat(init, [last], g);
      // `last` grows less than `x`, so at most one of the two is selected.
      if x.growth == g {
        assert WithGrowth([last], g) == [];
      } else {
        assert WithGrowth([x], g) == [];
      }
    }
  }

  /**
   * The sort is stable: for every growth value, the trends with that growth
   * come out in the order they went in.
   */
  lemma {:induction false} SortByGrowthStable(s: seq<GenreTrend>, g: int)
    ensures WithGrowth(SortByGrowth(s), g) == WithGrowth(s, g)
    decreases |s|
  {
    if s != [] {
      var init, last := s[..|s| - 1], s[|s| - 1];
      assert s == init + [last];
      SortByGrowthStable(init, g);
      InsertTrendStable(last, SortByGrowth(init), g);
      WithGrowthConcat(init, [last], g);
    }
  }

  /** Sorting one more element inserts it into the sorted prefix. */
  lemma SortByGrowthStep(s: seq<GenreTrend>, i: nat, prefix: seq<GenreTrend>)
    requires i < |s|
    requires prefix == InsertTrend(s[i], SortByGrowth(s[..i]))
    ensures prefix == SortByGrowth(s[..i + 1])
  {
    assert s[..i + 1][..i] == s[..i];
  }

  /** Where the insertion lands: after the last element whose growth is at least `x`'s. */
  lemma {:induction false} InsertTrendAt(x: GenreTrend, s: seq<GenreTrend>, j: nat)
    requires j <= |s|
    requires j == 0 || s[j - 1].growth >= x.growth
    requires forall k :: j <= k < |s| ==> s[k].growth < x.growth
    ensures InsertTrend(x, s) == s[..j] + [x] + s[j..]
    decreases |s|
  {
    if j < |s| {
      var init := s[..|s| - 1];
      var last := s[|s| - 1];
      assert last.growth < x.growth;
      assert InsertTrend(x, s) == InsertTrend(x, init) + [last];
      assert j == 0 || init[j - 1] == s[j - 1];
      assert forall k :: j <= k < |init| ==> init[k] == s[k];
      InsertTrendAt(x, init, j);
      calc {
        InsertTrend(x, s);
        InsertTrend(x, init) + [last];
        init[..j] + [x] + init[j..] + [last];
        { assert init[..j] == s[..j]; assert init[j..] + [last] == s[j..]; }
        s[..j] + [x] + s[j..];
      }
    } else {
      assert s[..j] == s;
      assert s[j..] == [];
    }
  }

  /**
   * The shifting loop of one sort step: every element before `a[i]` with a
   * smaller growth moves one place up, leaving a gap at the returned index.
   */
  method ShiftBack(a: array<GenreTrend>, i: nat) returns (j: nat)
    requires i < a.Length
    modifies a
    ensures j <= i
    ensures j == 0 || old(a[j - 1]).growth >= old(a[i]).growth
    ensures forall k :: j <= k < i ==> old(a[k]).growth < old(a[i]).growth
    ensures forall k :: 0 <= k < j ==> a[k] == old(a[k])
    ensures forall k :: j < k <= i ==> a[k] == old(a[k - 1])
    ensures forall k :: i < k < a.Length ==> a[k] == old(a[k])
  {
    var x := a[i];
    j := i;
    while j > 0 && a[j - 1].growth < x.growth
      invariant 0 <= j <= i
      invariant forall k :: 0 <= k < j ==> a[k] == old(a[k])
      invariant forall k :: j < k <= i ==> a[k] == old(a[k - 1])
      invariant forall k :: i < k < a.Length ==> a[k] == old(a[k])
      invariant forall k :: j <= k < i ==> old(a[k]).growth < x.growth
    {
      a[j] := a[j - 1];
      j := j - 1;
    }
  }

  /** One step of the in-place sort: move `a[i]` back past the smaller-growth elements before it. */
  method InsertBack(a: array<GenreTrend>, i: nat)
    requires i < a.Length
    modifies a
    ensures a[..i + 1] == InsertTrend(old(a[i]), old(a[..i]))
    ensures a[i + 1..] == old(a[i + 1..])
  {
    var x := a[i];
    ghost var sorted := a[..i];
    var j := ShiftBack(a, i);
    a[j] := x;
    InsertTrendAt(x, sorted, j);
    ghost var expected := sorted[..j] + [x] + sorted[j..];
    assert forall k :: 0 <= k <= i ==> a[k] == expected[k];
    assert a[..i + 1] == expected;
    assert a[i + 1..] == old(a[i + 1..]);
  }

  /** `mockTrends.sort(...)` in place: an insertion sort over the array. */
  method SortTrends(a: array<GenreTrend>)
    modifies a
    ensures a[..] == SortByGrowth(old(a[..]))
  {
    ghost var orig := a[..];
    var i := 0;
    while i < a.Length
      invariant 0 <= i <= a.Length
      invariant a[..i] == SortByGrowth(orig[..i])
      invariant a[i..] == orig[i..]
    {
      assert a[i] == orig[i];
      InsertBack(a, i);
      SortByGrowthStep(orig, i, a[..i + 1]);
      i := i + 1;
    }
    assert orig[..a.Length] == orig;
    assert a[..] == a[..a.Length];
  }

  // ----- Tabs -----

  /** The label dashboard's tabs; scouting is shown first. */
  datatype LabelTab = ScoutingTabView | TrendsTabView | MarketTabView | MemoTabView

  const DefaultLabelTab := ScoutingTabView

  /** The scouting tab's cells: filters, result, loading flag, error and the opened profile. */
  class ScoutingTab {
    var filters: FormData
    var results: Option<Report>
    var isLoading: bool
    var error: Option<string>
    var viewingProfile: Option<ArtistProfileData>

    constructor ()
      ensures filters == map["genre" := Text("Synthwave"), "mood" := Text("Nostalgic"),
                             "min_growth_velocity" := Number(15.0), "max_monthly_listeners" := Number(50000.0)]
      ensures results.None? && !isLoading && error.None? && viewingProfile.None?
    {
      filters := map["genre" := Text("Synthwave"), "mood" := Text("Nostalgic"),
                     "min_growth_velocity" := Number(15.0), "max_monthly_listeners" := Number(50000.0)];
      results := None;
      isLoading := false;
      error := None;
      viewingProfile := None;
    }

    /** The current genre filter as text. */
    function GenreFilter(): string
      reads this
    {
      if "genre" in filters && filters["genre"].Text? then filters["genre"].text else ""
    }

    /** `handleFilterChange`: the input's raw text replaces the field named by its id, even for the slider. */
    method HandleFilterChange(id: string, value: string)
      modifies this
      ensures filters == old(filters)[id := Text(value)]
      ensures forall k :: k in old(filters) && k != id ==> k in filters && filters[k] == old(filters)[k]
      ensures results == old(results) && isLoading == old(isLoading) && error == old(error)
      ensures viewingProfile == old(viewingProfile)
    {
      filters := filters[id := Text(value)];
    }

    /** The synchronous part of `handleScout`, before the awaited call. */
    method StartScout()
      modifies this
      ensures isLoading && error.None? && results.None?
      ensures filters == old(filters) && viewingProfile == old(viewingProfile)
    {
      isLoading := true;
      error := None;
      results := None;
    }

    /** The part of `handleScout` after the awaited call, given its outcome. */
    method FinishScout(outcome: Outcome<Report>) returns (notice: Notice, resetKey: bool)
      modifies this
      ensures !isLoading
      ensures outcome.Success? ==>
        results == Some(outcome.result) && error == old(error) && notice == Notice("AI scouting complete!", SuccessNotice)
      ensures outcome.Failure? ==>
        && error == Some("Scouting failed: " + outcome.message) && results == old(results)
        && notice == Notice("Scouting failed: " + outcome.message, ErrorNotice)
      ensures resetKey <==> outcome.Failure? && JsText.Contains(outcome.message, KeyNotFound)
      ensures filters == old(filters) && viewingProfile == old(viewingProfile)
    {
      match outcome {
        case Success(r) =>
          results := Some(r);
          notice := Notice("AI scouting complete!", SuccessNotice);
          resetKey := false;
        case Failure(msg) =>
          resetKey := JsText.Contains(msg, KeyNotFound);
          error := Some("Scouting failed: " + msg);
          notice := Notice("Scouting failed: " + msg, ErrorNotice);
      }
      isLoading := false;
    }

    /** The whole of `handleScout`: the final cells depend only on the outcome. */
    method HandleScout(outcome: Outcome<Report>) returns (notice: Notice, resetKey: bool)
      modifies this
      ensures !isLoading
      ensures results == (if outcome.Success? then Some(outcome.result) else None)
      ensures error == (if outcome.Failure? then Some("Scouting failed: " + outcome.message) else None)
      ensures notice.kind == (if outcome.Success? then SuccessNotice else ErrorNotice)
      ensures filters == old(filters) && viewingProfile == old(viewingProfile)
    {
      StartScout();
      notice, resetKey := FinishScout(outcome);
    }

    /** `handleViewArtistProfile`: open the known or made-up profile for an artist card. */
    method ViewArtistProfile(name: string, randomListeners: nat, randomSaves: nat)
      modifies this
      ensures viewingProfile == Some(ProfileForName(name, old(GenreFilter()), randomListeners, randomSaves))
      ensures filters == old(filters) && results == old(results) && isLoading == old(isLoading) && error == old(error)
    {
      viewingProfile := Some(ProfileForName(name, GenreFilter(), randomListeners, randomSaves));
    }

    /** Closing the profile page returns to the scouting form. */
    method CloseProfile()
      modifies this
      ensures viewingProfile.None?
      ensures filters == old(filters) && results == old(results) && isLoading == old(isLoading) && error == old(error)
    {
      viewingProfile := None;
    }
  }

  /**
   * The market-analysis and deal-memo tabs: a form, the last result and a
   * loading flag. Failures only raise a notification; no error cell exists.
   */
  class ReportTab<R> {
    var formData: FormData
    var result: Option<R>
    var isLoading: bool
    const successMessage: string

    constructor (initial: FormData, doneMessage: string)
      ensures formData == initial && result.None? && !isLoading && successMessage == doneMessage
    {
      formData := initial;
      result := None;
      isLoading := false;
      successMessage := doneMessage;
    }

    /** The synchronous part of the handler, before the awaited call. */
    method Start()
      modifies this
      ensures isLoading && result.None? && formData == old(formData)
    {
      isLoading := true;
      result := None;
    }

    /** The part of the handler after the awaited call, given its outcome. */
    method Finish(outcome: Outcome<R>) returns (notice: Notice, resetKey: bool)
      modifies this
      ensures !isLoading && formData == old(formData)
      ensures outcome.Success? ==> result == Some(outcome.result) && notice == Notice(successMessage, SuccessNotice)
      ensures outcome.Failure? ==> result == old(result) && notice == Notice(outcome.message, ErrorNotice)
      ensures resetKey <==> outcome.Failure? && JsText.Contains(outcome.message, KeyNotFound)
    {
      match outcome {
        case Success(r) =>
          result := Some(r);
          notice := Notice(successMessage, SuccessNotice);
          resetKey := false;
        case Failure(msg) =>
          resetKey := JsText.Contains(msg, KeyNotFound);
          notice := Notice(msg, ErrorNotice);
      }
      isLoading := false;
    }

    /** The whole handler: a failure leaves no result, a success exactly the returned one. */
    method Handle(outcome: Outcome<R>) returns (notice: Notice, resetKey: bool)
      modifies this
      ensures !isLoading && formData == old(formData)
      ensures result == (if outcome.Success? then Some(outcome.result) else None)
      ensures notice.kind == (if outcome.Success? then SuccessNotice else ErrorNotice)
    {
      Start();
      notice, resetKey := Finish(outcome);
    }
  }

  /** The market-analysis tab as the dashboard creates it. */
  method NewMarketAnalysisTab() returns (tab: ReportTab<MarketAnalysisResponse>)
    ensures fresh(tab)
    ensures tab.formData == map["genre" := Text("Afro-Soul"), "location" := Text("Berlin")]
    ensures tab.successMessage == "Market analysis complete!" && tab.result.None? && !tab.isLoading
  {
    tab := new ReportTab(map["genre" := Text("Afro-Soul"), "location" := Text("Berlin")], "Market analysis complete!");
  }

  /** The deal-memo tab as the dashboard creates it; its result is the memo text. */
  method NewDealMemoTab() returns (tab: ReportTab<string>)
    ensures fresh(tab)
    ensures tab.formData == map["artist_name" := Text("Luna Bloom"), "deal_type" := Text("single_track_license"),
                                "key_terms" := Text("50% master royalty split, $500 advance, 2-year term.")]
    ensures tab.successMessage == "Deal memo drafted!" && tab.result.None? && !tab.isLoading
  {
    tab := new ReportTab(map["artist_name" := Text("Luna Bloom"), "deal_type" := Text("single_track_license"),
                             "key_terms" := Text("50% master royalty split, $500 advance, 2-year term.")],
                         "Deal memo drafted!");
  }
}
