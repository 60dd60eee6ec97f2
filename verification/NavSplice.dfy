// The managed Guides block of mkdocs.yml: validation, splice, and the file update.
module NavSplice {
  import opened Common
  import opened LineText
  import opened ManagedBlock

  const NAV_BEGIN := "  # >>> GENERATED Guides nav" + " \U{2014} DO NOT EDIT"
  const NAV_END := "  # <<< END GENERATED Guides nav"
  const ANCHOR_LINE := "  - API Reference: api/index.md"

  const MARKERS: Markers<string> := Markers(NAV_BEGIN, NAV_END, ANCHOR_LINE)

  function ValidateMkdocsAnchor(text: string): AnchorCheck { CheckLines(MARKERS, SplitLines(text)) }

  function SpliceNavFragment(text: string, fragment: string): Option<string> {
    match SpliceLines(MARKERS, SplitLines(text), SplitLines(fragment))
    case None => None
    case Some(lines) => Some(if EndsWithNewline(text) then JoinLines(lines) + "\n" else JoinLines(lines))
  }

  lemma MarkersAreUsable()
    ensures MARKERS.Distinct() && NAV_BEGIN != "" && NAV_END != "" && ANCHOR_LINE != ""
  {
    assert NAV_BEGIN[4] == '>' && NAV_END[4] == '<' && ANCHOR_LINE[4] == 'A';
  }

  lemma BeginIsOneLine()
    ensures BreakFree(NAV_BEGIN)
  {
    assert BreakFree("  # >>> GENERATED Guides nav");
    assert BreakFree(" \U{2014} DO NOT EDIT");
  }

  lemma EndIsOneLine()
    ensures BreakFree(NAV_END)
  {
  }

  // ---------------------------------------------------------------------------
  // Text-level laws
  // ---------------------------------------------------------------------------

  lemma {:induction false} JoinWithBlank(lines: seq<string>)
    requires lines != []
    ensures JoinLines(lines + [""]) == JoinLines(lines) + "\n"
  {
    if |lines| == 1 {
      assert (lines + [""])[1..] == [""];
    } else {
      assert (lines + [""])[1..] == lines[1..] + [""];
      JoinWithBlank(lines[1..]);
    }
  }

  function JoinedSplice(lines: seq<string>, fragment: seq<string>): Option<string> {
    match SpliceLines(MARKERS, lines, fragment)
    case None => None
    case Some(out) => Some(JoinLines(out))
  }

  lemma FinalNewline(lines: seq<string>, fragment: seq<string>)
    ensures CheckLines(MARKERS, lines + [""]) == CheckLines(MARKERS, lines)
    ensures JoinedSplice(lines + [""], fragment) ==
            match JoinedSplice(lines, fragment) { case None => None case Some(joined) => Some(joined + "\n") }
  {
    MarkersAreUsable();
    SpliceKeepsTail(MARKERS, lines, "", fragment);
    var spliced := SpliceLines(MARKERS, lines, fragment);
    if spliced.Some? { JoinWithBlank(spliced.value); }
  }

  // The text splice is the line splice on all lines, joined.
  lemma SpliceIsOnAllLines(text: string, fragment: string)
    ensures ValidateMkdocsAnchor(text) == CheckLines(MARKERS, AllLines(text))
    ensures SpliceNavFragment(text, fragment) == JoinedSplice(AllLines(text), SplitLines(fragment))
  {
    if EndsWithNewline(text) {
      FinalNewline(SplitLines(text), SplitLines(fragment));
    }
  }

  lemma AssembledBreakFree(before: seq<string>, fragment: seq<string>, after: seq<string>)
    requires AllBreakFree(before) && AllBreakFree(fragment) && AllBreakFree(after)
    ensures AllBreakFree(Assembled(MARKERS, before, fragment, after))
  {
    BeginIsOneLine();
    EndIsOneLine();
  }

  lemma SplicedBreakFree(lines: seq<string>, fragment: seq<string>)
    requires AllBreakFree(lines) && AllBreakFree(fragment) && Valid(MARKERS, lines)
    ensures var out := SpliceLines(MARKERS, lines, fragment);
            out.Some? && AllBreakFree(out.value) && |out.value| >= 2
  {
    SpliceIsAssembled(MARKERS, lines, fragment);
    AssembledBreakFree(Before(MARKERS, lines), fragment, After(MARKERS, lines));
  }

  // Parsing a spliced text gives the spliced lines.
  lemma SplicedTextLines(text: string, fragment: string)
    requires ValidateMkdocsAnchor(text) == Accepted
    ensures SpliceNavFragment(text, fragment).Some? && SpliceLines(MARKERS, AllLines(text), SplitLines(fragment)).Some?
    ensures AllLines(SpliceNavFragment(text, fragment).value) ==
            SpliceLines(MARKERS, AllLines(text), SplitLines(fragment)).value
  {
    SpliceIsOnAllLines(text, fragment);
    SplicedBreakFree(AllLines(text), SplitLines(fragment));
    SplitOfJoin(SpliceLines(MARKERS, AllLines(text), SplitLines(fragment)).value);
  }

  // Splicing f1 and then f2 writes what splicing f2 alone writes, byte for byte.
  lemma SpliceTextAbsorbs(text: string, f1: string, f2: string)
    requires ValidateMkdocsAnchor(text) == Accepted && Clean(MARKERS, SplitLines(f1))
    ensures SpliceNavFragment(text, f1).Some?
    ensures SpliceNavFragment(SpliceNavFragment(text, f1).value, f2) == SpliceNavFragment(text, f2)
  {
    MarkersAreUsable();
    SplicedTextLines(text, f1);
    SpliceIsOnAllLines(text, f2);
    SpliceIsOnAllLines(SpliceNavFragment(text, f1).value, f2);
    SpliceIsOnAllLines(text, f1);
    SpliceAbsorbs(MARKERS, AllLines(text), SplitLines(f1), SplitLines(f2));
  }

  // Re-splicing the fragment a text already holds gives the same text exactly when newline is
  // its only line boundary.
  lemma RespliceIsSameIff(text: string, fragment: string)
    requires Valid(MARKERS, AllLines(text)) && Marked(MARKERS, AllLines(text))
    requires Managed(MARKERS, AllLines(text)) == SplitLines(fragment)
    ensures SpliceNavFragment(text, fragment) == Some(text) <==> OnlyNewlines(text)
  {
    SpliceIsOnAllLines(text, fragment);
    ValidParts(MARKERS, AllLines(text));
    SpliceIsAssembled(MARKERS, AllLines(text), SplitLines(fragment));
    JoinOfSplitIff(text);
  }

  // ---------------------------------------------------------------------------
  // The stored file
  // ---------------------------------------------------------------------------

  // The file is written only if the splice differs from what was read; otherwise its bytes
  // stay, whatever their boundaries.
  function Stored(stored: string, spliced: Option<string>): Option<string> {
    if spliced == Some(ReadText(stored)) then Some(stored) else spliced
  }

  function AfterSplice(stored: string, fragment: string): Option<string> {
    Stored(stored, SpliceNavFragment(ReadText(stored), fragment))
  }

  // What a splice writes has newline as its only boundary: every other one in the file goes.
  lemma SplicedIsOnlyNewlines(text: string, fragment: string)
    requires ValidateMkdocsAnchor(text) == Accepted
    ensures SpliceNavFragment(text, fragment).Some? && OnlyNewlines(SpliceNavFragment(text, fragment).value)
  {
    SplicedTextLines(text, fragment);
    SpliceIsOnAllLines(text, fragment);
    SplicedBreakFree(AllLines(text), SplitLines(fragment));
    JoinIsOnlyNewlines(SpliceLines(MARKERS, AllLines(text), SplitLines(fragment)).value);
  }

  // So a run that writes changes the bytes.
  lemma WrittenDiffers(stored: string, fragment: string)
    requires ValidateMkdocsAnchor(ReadText(stored)) == Accepted
    ensures AfterSplice(stored, fragment) == Some(stored) <==> SpliceNavFragment(ReadText(stored), fragment) == Some(ReadText(stored))
  {
    SplicedIsOnlyNewlines(ReadText(stored), fragment);
    if SpliceNavFragment(ReadText(stored), fragment) == Some(stored) { ReadOfNewlines(stored); }
  }

  // Byte-for-byte preservation: a run with the fragment a file already holds keeps its bytes
  // exactly when the file has no line boundary but "\n", "\r\n" and "\r".
  lemma ResplicePreservesBytesIff(stored: string, fragment: string)
    requires Valid(MARKERS, AllLines(ReadText(stored))) && Marked(MARKERS, AllLines(ReadText(stored)))
    requires Managed(MARKERS, AllLines(ReadText(stored))) == SplitLines(fragment)
    ensures AfterSplice(stored, fragment) == Some(stored) <==> OnlyUniversal(stored)
  {
    var text := ReadText(stored);
    RespliceIsSameIff(text, fragment);
    SpliceIsOnAllLines(text, fragment);
    ReadIsOnlyNewlinesIff(stored);
    WrittenDiffers(stored, fragment);
  }

  // ---------------------------------------------------------------------------
  // The rendered fragment
  // ---------------------------------------------------------------------------

  datatype Deck = Deck(title: string, slug: string)

  const OVERVIEW := Deck("Overview", "index")

  const LONG_FORM_GUIDES: seq<Deck> := [
    Deck("Tutorial \U{2014} first study", "tutorial-first-study"),
    Deck("Quick tour", "quick-tour"),
    Deck("Workflows overview", "workflows-overview"),
    Deck("LLM endpoint setup", "llm-endpoint-setup")
  ]

  const QUOTE: char := '\U{27}'

  function DoubleQuotes(s: string): string {
    if s == "" then "" else (if s[0] == QUOTE then [QUOTE, QUOTE] else [s[0]]) + DoubleQuotes(s[1..])
  }

  function YamlSingleQuote(scalar: string): string {
    [QUOTE] + DoubleQuotes(scalar) + [QUOTE]
  }

  function NavEntry(d: Deck, dir: string): string {
    "          - " + (YamlSingleQuote(d.title) + (": guides/" + dir + "/" + d.slug + ".md"))
  }

  function NavEntries(decks: seq<Deck>, dir: string): (lines: seq<string>)
    ensures |lines| == |decks|
    ensures forall i :: 0 <= i < |decks| ==> lines[i] == NavEntry(decks[i], dir)
  {
    seq(|decks|, i requires 0 <= i < |decks| => NavEntry(decks[i], dir))
  }

  const WALKTHROUGHS_HEADER: seq<string> := ["  - Guides:", "      - Walkthroughs:"]
  const IN_DEPTH_HEADER: seq<string> := ["      - In-depth:"]

  function NavLines(decks: seq<Deck>): seq<string> {
    WALKTHROUGHS_HEADER
    + NavEntries([OVERVIEW] + decks, "walkthroughs")
    + IN_DEPTH_HEADER
    + NavEntries([OVERVIEW] + LONG_FORM_GUIDES, "in-depth")
  }

  function RenderNavFragment(decks: seq<Deck>): string { JoinLines(NavLines(decks)) }

  predicate SingleLine(d: Deck) { BreakFree(d.title) && BreakFree(d.slug) }

  lemma BreakFreeConcat(a: string, b: string)
    requires BreakFree(a) && BreakFree(b)
    ensures BreakFree(a + b)
  {
  }

  lemma {:induction false} DoubleQuotesBreakFree(s: string)
    requires BreakFree(s)
    ensures BreakFree(DoubleQuotes(s))
  {
    if s != "" { DoubleQuotesBreakFree(s[1..]); }
  }

  lemma NavEntryIsClean(d: Deck, dir: string)
    requires SingleLine(d) && BreakFree(dir)
    ensures BreakFree(NavEntry(d, dir)) && Harmless(NavEntry(d, dir))
  {
    DoubleQuotesBreakFree(d.title);
    BreakFreeConcat(": guides/" + dir + "/", d.slug);
    var indent := "          - ";
    assert NavEntry(d, dir)[..|indent|] == indent;
    assert NavEntry(d, dir)[4] == ' ';
  }

  // Longer than its indent, and with something there that no marker and no anchor has.
  predicate Harmless(line: string) {
    |line| > 4 && line[4] in {' ', 'G'}
  }

  predicate AllHarmless(lines: seq<string>) {
    forall i :: 0 <= i < |lines| ==> BreakFree(lines[i]) && Harmless(lines[i])
  }

  lemma HarmlessIsClean(lines: seq<string>)
    requires AllHarmless(lines)
    ensures Clean(MARKERS, lines)
  {
    assert NAV_BEGIN[4] == '>' && NAV_END[4] == '<' && ANCHOR_LINE[4] == 'A';
  }

  lemma NavEntriesAreClean(decks: seq<Deck>, dir: string)
    requires BreakFree(dir) && forall d :: d in decks ==> SingleLine(d)
    ensures AllHarmless(NavEntries(decks, dir))
  {
    forall i | 0 <= i < |decks|
      ensures BreakFree(NavEntries(decks, dir)[i]) && Harmless(NavEntries(decks, dir)[i])
    {
      NavEntryIsClean(decks[i], dir);
    }
  }

  lemma HeadersAreClean()
    ensures AllHarmless(WALKTHROUGHS_HEADER) && AllHarmless(IN_DEPTH_HEADER)
  {
    assert BreakFree("  - Guides:");
    assert BreakFree("      - Walkthroughs:");
    assert BreakFree("      - In-depth:");
  }

  lemma GuidesAreSingleLine()
    ensures SingleLine(OVERVIEW) && forall d :: d in LONG_FORM_GUIDES ==> SingleLine(d)
  {
    TutorialIsSingleLine();
    WorkflowsIsSingleLine();
    EndpointIsSingleLine();
    assert SingleLine(LONG_FORM_GUIDES[1]);
  }

  lemma TutorialIsSingleLine()
    ensures SingleLine(LONG_FORM_GUIDES[0])
  {
    TutorialTitleIsSingleLine();
    TutorialSlugIsSingleLine();
  }

  lemma TutorialTitleIsSingleLine()
    ensures BreakFree("Tutorial \U{2014} first study")
  {
  }

  lemma TutorialSlugIsSingleLine()
    ensures BreakFree("tutorial-first-study")
  {
  }

  lemma WorkflowsIsSingleLine()
    ensures SingleLine(LONG_FORM_GUIDES[2])
  {
  }

  lemma EndpointIsSingleLine()
    ensures SingleLine(LONG_FORM_GUIDES[3])
  {
  }

  lemma HarmlessConcat(a: seq<string>, b: seq<string>)
    requires AllHarmless(a) && AllHarmless(b)
    ensures AllHarmless(a + b)
  {
  }

  lemma HarmlessLinesComeBack(lines: seq<string>)
    requires |lines| >= 2 && AllHarmless(lines)
    ensures SplitLines(JoinLines(lines)) == lines
  {
    SplitOfJoin(lines);
    assert Harmless(lines[|lines| - 1]);
  }

  // For single-line titles and slugs the rendered fragment splits into its lines, none of
  // which is a marker or the anchor.
  lemma RenderedFragmentIsClean(decks: seq<Deck>)
    requires forall d :: d in decks ==> SingleLine(d)
    ensures SplitLines(RenderNavFragment(decks)) == NavLines(decks) && Clean(MARKERS, NavLines(decks))
  {
    var lines := NavLines(decks);
    assert AllHarmless(lines) by { NavLinesAreHarmless(decks); }
    HarmlessIsClean(lines);
    HarmlessLinesComeBack(lines);
  }

  lemma NavLinesAreHarmless(decks: seq<Deck>)
    requires forall d :: d in decks ==> SingleLine(d)
    ensures AllHarmless(NavLines(decks))
  {
    var walk := NavEntries([OVERVIEW] + decks, "walkthroughs");
    var deep := NavEntries([OVERVIEW] + LONG_FORM_GUIDES, "in-depth");
    GuidesAreSingleLine();
    HeadersAreClean();
    NavEntriesAreClean([OVERVIEW] + decks, "walkthroughs");
    NavEntriesAreClean([OVERVIEW] + LONG_FORM_GUIDES, "in-depth");
    HarmlessConcat(WALKTHROUGHS_HEADER, walk);
    HarmlessConcat(WALKTHROUGHS_HEADER + walk, IN_DEPTH_HEADER);
    HarmlessConcat(WALKTHROUGHS_HEADER + walk + IN_DEPTH_HEADER, deep);
  }

  // ---------------------------------------------------------------------------
  // The file
  // ---------------------------------------------------------------------------

  datatype UpdateResult = Rejected(reason: AnchorCheck) | Updated(changed: bool)

  class MkdocsFile {
    var content: string
    var writes: nat

    constructor (content: string)
      ensures this.content == content && writes == 0
    {
      this.content, writes := content, 0;
    }

    method WriteText(text: string)
      modifies this
      ensures content == text && writes == old(writes) + 1
    {
      content, writes := text, writes + 1;
    }

    // Read, validate, splice, and write only on a difference.
    method UpdateMkdocsNav(decks: seq<Deck>) returns (r: UpdateResult)
      modifies this
      ensures r.Rejected? <==> ValidateMkdocsAnchor(ReadText(old(content))) != Accepted
      ensures r.Rejected? ==>
                r.reason == ValidateMkdocsAnchor(ReadText(old(content))) && content == old(content) && writes == old(writes)
      ensures r.Updated? ==>
                SpliceNavFragment(ReadText(old(content)), RenderNavFragment(decks)) ==
                Some(if r.changed then content else ReadText(old(content)))
      ensures r.Updated? ==>
                (r.changed <==> content != old(content)) && writes == old(writes) + if r.changed then 1 else 0
      ensures r.Updated? ==> AfterSplice(old(content), RenderNavFragment(decks)) == Some(content)
    {
      var text := ReadText(content);
      var check := ValidateMkdocsAnchor(text);
      if check != Accepted {
        return Rejected(check);
      }
      SplicedTextLines(text, RenderNavFragment(decks));
      WrittenDiffers(content, RenderNavFragment(decks));
      var newText := SpliceNavFragment(text, RenderNavFragment(decks)).value;
      hide *;
      if newText != text {
        WriteText(newText);
        return Updated(true);
      }
      return Updated(false);
    }
  }

  // Any number of runs with any deck lists, as a function of the stored file; None once a run
  // is rejected.
  function AfterRuns(stored: string, runs: seq<seq<Deck>>): Option<string> {
    if runs == [] then Some(stored) else AfterRun(AfterRuns(stored, runs[..|runs| - 1]), runs[|runs| - 1])
  }

  function AfterRun(stored: Option<string>, decks: seq<Deck>): Option<string> {
    if stored.None? || ValidateMkdocsAnchor(ReadText(stored.value)) != Accepted then None
    else AfterSplice(stored.value, RenderNavFragment(decks))
  }

  predicate SingleLineRuns(runs: seq<seq<Deck>>) {
    forall i :: 0 <= i < |runs| ==> forall d :: d in runs[i] ==> SingleLine(d)
  }

  // What the file looks like after a run: nothing but the block differs from the original.
  ghost predicate HoldsBlockBeforeAnchor(original: string, text: string, fragment: seq<string>) {
    var lines := AllLines(text);
    && Valid(MARKERS, lines) && Marked(MARKERS, lines)
    && Outside(MARKERS, lines) == AllLines(original)
    && Managed(MARKERS, lines) == fragment
    && IndexOf(lines, ANCHOR_LINE) == IndexOf(lines, NAV_END) + 1
  }

  // The file can be used, and has no block yet.
  predicate Unmarked(stored: string) {
    ValidateMkdocsAnchor(ReadText(stored)) == Accepted && !Marked(MARKERS, AllLines(ReadText(stored)))
  }

  // From such a file no run is ever rejected and only the last run counts.
  lemma {:induction false} OnlyLastRunCounts(stored: string, runs: seq<seq<Deck>>)
    requires Unmarked(stored) && runs != [] && SingleLineRuns(runs)
    ensures AfterRuns(stored, runs) == SpliceNavFragment(ReadText(stored), RenderNavFragment(runs[|runs| - 1]))
  {
    hide ReadText, ValidateMkdocsAnchor, SpliceNavFragment, RenderNavFragment, NavLines, AfterRun, Unmarked, Clean, SplitLines, SingleLine;
    var n := |runs| - 1;
    var init := runs[..n];
    if n > 0 {
      assert forall i :: 0 <= i < n ==> init[i] == runs[i];
      OnlyLastRunCounts(stored, init);
      RenderedFragmentIsClean(runs[n - 1]);
      NextRun(stored, RenderNavFragment(runs[n - 1]), runs[n]);
    } else {
      assert AfterRuns(stored, init) == Some(stored);
      RenderedFragmentIsClean(runs[0]);
      FirstRun(stored, runs[0]);
    }
  }

  // The first run writes.
  lemma FirstRun(stored: string, decks: seq<Deck>)
    requires Unmarked(stored) && Clean(MARKERS, SplitLines(RenderNavFragment(decks)))
    ensures AfterRun(Some(stored), decks) == SpliceNavFragment(ReadText(stored), RenderNavFragment(decks))
  {
    OneRunFromUnmarkedFile(ReadText(stored), RenderNavFragment(decks));
    hide ValidateMkdocsAnchor, SpliceNavFragment, RenderNavFragment, ReadText;
  }

  lemma NextRun(stored: string, f: string, decks: seq<Deck>)
    requires Unmarked(stored) && Clean(MARKERS, SplitLines(f))
    ensures var g := RenderNavFragment(decks);
            AfterRun(SpliceNavFragment(ReadText(stored), f), decks) == SpliceNavFragment(ReadText(stored), g)
  {
    var text := ReadText(stored);
    OneRunFromUnmarkedFile(text, f);
    SpliceTextAbsorbs(text, f, RenderNavFragment(decks));
    SplicedIsOnlyNewlines(text, f);
    ReadOfNewlines(SpliceNavFragment(text, f).value);
    hide ValidateMkdocsAnchor, SpliceNavFragment, RenderNavFragment, ReadText;
  }

  // After any number of runs the lines outside the block are the ones first read, the block
  // holds the last deck list and ends right before the anchor, and the next run is accepted.
  lemma RunsFromUnmarkedFile(stored: string, runs: seq<seq<Deck>>)
    requires Unmarked(stored) && runs != [] && SingleLineRuns(runs)
    ensures AfterRuns(stored, runs).Some?
    ensures var after := AfterRuns(stored, runs).value;
            && HoldsBlockBeforeAnchor(ReadText(stored), after, NavLines(runs[|runs| - 1]))
            && ReadText(after) == after && ValidateMkdocsAnchor(after) == Accepted
  {
    var text := ReadText(stored);
    OnlyLastRunCounts(stored, runs);
    RenderedFragmentIsClean(runs[|runs| - 1]);
    OneRunFromUnmarkedFile(text, RenderNavFragment(runs[|runs| - 1]));
    SplicedIsOnlyNewlines(text, RenderNavFragment(runs[|runs| - 1]));
    ReadOfNewlines(AfterRuns(stored, runs).value);
  }

  lemma OneRunFromUnmarkedFile(text: string, fragment: string)
    requires ValidateMkdocsAnchor(text) == Accepted && !Marked(MARKERS, AllLines(text))
    requires Clean(MARKERS, SplitLines(fragment))
    ensures SpliceNavFragment(text, fragment).Some?
    ensures HoldsBlockBeforeAnchor(text, SpliceNavFragment(text, fragment).value, SplitLines(fragment))
    ensures ValidateMkdocsAnchor(SpliceNavFragment(text, fragment).value) == Accepted
  {
    var lines, f := AllLines(text), SplitLines(fragment);
    MarkersAreUsable();
    SplicedTextLines(text, fragment);
    SpliceIsOnAllLines(text, fragment);
    SpliceIsOnAllLines(SpliceNavFragment(text, fragment).value, fragment);
    SpliceKeepsOutside(MARKERS, lines, f);
    FirstSpliceEndsAtAnchor(MARKERS, lines, f);
  }
}
