/**
  The CF section of the report: the text the CF checker library prints is
  read back line by line and turned into a header, a list of messages and
  three counters (`AdagucChecker._checker`, adaguc-checker.py:258-328).

  `ParseCheckerOutput` is the parser loop itself, a state machine over
  `curblock` and `curname`. It is proved against the functions below, which
  describe its output line by line without any loop state: the region a line
  falls in, the most recent variable name, the header text and the expected
  messages.
 */
module CfCheckParser {
  import opened Wrappers
  import opened Strings
  import opened Messages

  const HEADER_MARKER := "====================="
  const CHECK_MARKER := "------------------"
  const VARIABLE_PREFIX := "Checking variable: "
  const WARN_PREFIX := "WARN: "
  const ERROR_PREFIX := "ERROR: "
  const INFO_PREFIX := "INFO: "
  const SUMMARY_PREFIX := "ERRORS detected:"

  const CATEGORY := "GENERAL"
  const EXCEPTION_TEXT := "Exception occurred during CF-checks."

  /** The `cfcheck_report` section. */
  datatype CfReport = CfReport(nerrors: nat, ninfo: nat, nwarnings: nat, header: string, messages: seq<Message>)

  const EmptyCfReport := CfReport(0, 0, 0, "", [])

  /** The values of `curblock`; `Unset` stands for its initial `None`. */
  datatype Block = Unset | Empty | Header | Check | Warning | Error | Info | Summary

  /** The severity string a message of the block is filed under. */
  function BlockSeverity(block: Block): string
    requires block in {Warning, Error, Info}
  {
    match block
    case Warning => WARNING
    case Error => ERROR
    case Info => INFO
  }

  /** The message text, labelled with the current variable when there is one (`if(curname)`). */
  function Label(name: string, text: string): string {
    if name == "" then text else "Variable " + name + ": " + text
  }

  function Front(lines: seq<string>): seq<string>
    requires lines != []
  {
    lines[..|lines| - 1]
  }

  function Last(lines: seq<string>): string
    requires lines != []
  {
    lines[|lines| - 1]
  }

  // ---------------------------------------------------------------------------
  // The output described line by line.
  // ---------------------------------------------------------------------------

  /** What a line is, read in the order of the parser's tests. */
  datatype LineKind =
    | Blank
    | HeaderMarker
    | CheckMarker
    | VariableDecl(name: string)
    | Finding(severity: string, text: string)
    | SummaryLine
    | Other

  function Classify(line: string): LineKind {
    if IsBlank(line) then Blank
    else if StartsWith(line, HEADER_MARKER) then HeaderMarker
    else if StartsWith(line, CHECK_MARKER) then CheckMarker
    else if StartsWith(line, VARIABLE_PREFIX) then VariableDecl(line[|VARIABLE_PREFIX|..])
    else if StartsWith(line, WARN_PREFIX) then Finding(WARNING, line[|WARN_PREFIX|..])
    else if StartsWith(line, ERROR_PREFIX) then Finding(ERROR, line[|ERROR_PREFIX|..])
    else if StartsWith(line, INFO_PREFIX) then Finding(INFO, line[|INFO_PREFIX|..])
    else if StartsWith(line, SUMMARY_PREFIX) then SummaryLine
    else Other
  }

  /** A line that, inside a header, is copied into it. */
  predicate IsHeaderBody(line: string) {
    Classify(line) == SummaryLine || Classify(line) == Other
  }

  /** Where the parser stands after some lines: in the header, in a block of findings, or elsewhere. */
  datatype Region = Outside | InHeader | InFindings(severity: string)

  /** The region after `line`, given the region before it. */
  function NextRegion(before: Region, line: string): Region {
    match Classify(line)
    case Blank => Outside
    case HeaderMarker => InHeader
    case CheckMarker => Outside
    case VariableDecl(_) => Outside
    case Finding(severity, _) => InFindings(severity)
    case SummaryLine => if before == InHeader then InHeader else Outside
    case Other => before
  }

  /** What `line` adds to the header: itself and "\n" when it lies inside one. */
  function HeaderAddition(before: Region, line: string): string {
    if before == InHeader && IsHeaderBody(line) then line + "\n" else ""
  }

  /**
    The messages `line` adds: a finding line adds its text without the prefix;
    a further line of a block of findings adds itself under the block's
    severity; either is labelled with the current variable.
   */
  function NewMessages(before: Region, name: string, line: string): seq<Message> {
    match Classify(line)
    case Finding(severity, text) => [Message(CATEGORY, "", Label(name, text), severity)]
    case Other =>
      if before.InFindings? then [Message(CATEGORY, "", Label(name, line), before.severity)] else []
    case _ => []
  }

  /** The variable name after `line`: a `Checking variable: ` line replaces it, nothing else resets it. */
  function NextName(name: string, line: string): string {
    match Classify(line)
    case VariableDecl(next) => next
    case _ => name
  }

  function RegionAfter(lines: seq<string>): Region {
    if lines == [] then Outside else NextRegion(RegionAfter(Front(lines)), Last(lines))
  }

  /** The name from the most recent `Checking variable: ` line, or "" before any. */
  function LastVariable(lines: seq<string>): string {
    if lines == [] then "" else NextName(LastVariable(Front(lines)), Last(lines))
  }

  /** The header: every line of a header region after its marker, each followed by "\n". */
  function HeaderText(lines: seq<string>): string {
    if lines == [] then ""
    else HeaderText(Front(lines)) + HeaderAddition(RegionAfter(Front(lines)), Last(lines))
  }

  /** The messages of all lines, in order. */
  function ExpectedMessages(lines: seq<string>): seq<Message> {
    if lines == [] then []
    else
      var front := Front(lines);
      ExpectedMessages(front) + NewMessages(RegionAfter(front), LastVariable(front), Last(lines))
  }

  /** The number of lines that begin with `prefix`. */
  function CountPrefixed(lines: seq<string>, prefix: string): nat {
    if lines == [] then 0
    else CountPrefixed(Front(lines), prefix) + if StartsWith(Last(lines), prefix) then 1 else 0
  }

  // ---------------------------------------------------------------------------
  // Facts about the markers.
  // ---------------------------------------------------------------------------

  lemma StartsWithAt(s: string, p: string, k: nat)
    requires StartsWith(s, p) && k < |p|
    ensures s[k] == p[k]
  {
    assert s[k] == s[..|p|][k];
  }

  /**
    The markers and prefixes begin with six different characters, none of them
    whitespace, and "ERROR: " and "ERRORS detected:" part at their sixth.
   */
  lemma PrefixFacts(line: string)
    ensures StartsWith(line, HEADER_MARKER) ==> line[0] == '='
    ensures StartsWith(line, CHECK_MARKER) ==> line[0] == '-'
    ensures StartsWith(line, VARIABLE_PREFIX) ==> line[0] == 'C'
    ensures StartsWith(line, WARN_PREFIX) ==> line[0] == 'W'
    ensures StartsWith(line, ERROR_PREFIX) ==> line[0] == 'E' && line[5] == ':'
    ensures StartsWith(line, INFO_PREFIX) ==> line[0] == 'I'
    ensures StartsWith(line, SUMMARY_PREFIX) ==> line[5] == 'S'
    ensures IsBlank(line) && |line| > 0 ==> IsSpace(line[0])
  {
    if StartsWith(line, HEADER_MARKER) { StartsWithAt(line, HEADER_MARKER, 0); }
    if StartsWith(line, CHECK_MARKER) { StartsWithAt(line, CHECK_MARKER, 0); }
    if StartsWith(line, VARIABLE_PREFIX) { StartsWithAt(line, VARIABLE_PREFIX, 0); }
    if StartsWith(line, WARN_PREFIX) { StartsWithAt(line, WARN_PREFIX, 0); }
    if StartsWith(line, ERROR_PREFIX) { StartsWithAt(line, ERROR_PREFIX, 0); StartsWithAt(line, ERROR_PREFIX, 5); }
    if StartsWith(line, INFO_PREFIX) { StartsWithAt(line, INFO_PREFIX, 0); }
    if StartsWith(line, SUMMARY_PREFIX) { StartsWithAt(line, SUMMARY_PREFIX, 5); }
  }

  /** A line is a finding of a severity exactly when it begins with that severity's prefix. */
  lemma ClassifyFinding(line: string)
    ensures StartsWith(line, WARN_PREFIX) ==> Classify(line) == Finding(WARNING, line[|WARN_PREFIX|..])
    ensures StartsWith(line, ERROR_PREFIX) ==> Classify(line) == Finding(ERROR, line[|ERROR_PREFIX|..])
    ensures StartsWith(line, INFO_PREFIX) ==> Classify(line) == Finding(INFO, line[|INFO_PREFIX|..])
    ensures Classify(line).Finding? && Classify(line).severity == WARNING ==> StartsWith(line, WARN_PREFIX)
    ensures Classify(line).Finding? && Classify(line).severity == ERROR ==> StartsWith(line, ERROR_PREFIX)
    ensures Classify(line).Finding? && Classify(line).severity == INFO ==> StartsWith(line, INFO_PREFIX)
    ensures Classify(line).Finding? ==> IsKnownSeverity(Classify(line).severity)
  {
    PrefixFacts(line);
  }

  // ---------------------------------------------------------------------------
  // The parser loop.
  // ---------------------------------------------------------------------------

  /** The region a value of `curblock` stands for. */
  function RegionOf(block: Block): Region {
    match block
    case Header => InHeader
    case Warning => InFindings(WARNING)
    case Error => InFindings(ERROR)
    case Info => InFindings(INFO)
    case _ => Outside
  }

  function Bump(counter: nat, line: string, prefix: string): nat {
    if StartsWith(line, prefix) then counter + 1 else counter
  }

  /**
    One turn of the parser loop: the new `curblock`, `curname` and report
    after `line`, given their values before it.
   */
  method ParseLine(curblock: Block, curname: string, report: CfReport, line: string)
    returns (block: Block, name: string, next: CfReport)
    ensures RegionOf(block) == NextRegion(RegionOf(curblock), line)
    ensures name == NextName(curname, line)
    ensures next.nerrors == Bump(report.nerrors, line, ERROR_PREFIX)
    ensures next.nwarnings == Bump(report.nwarnings, line, WARN_PREFIX)
    ensures next.ninfo == Bump(report.ninfo, line, INFO_PREFIX)
    ensures next.header == report.header + HeaderAddition(RegionOf(curblock), line)
    ensures next.messages == report.messages + NewMessages(RegionOf(curblock), curname, line)
  {
    PrefixFacts(line);
    block, name, next := curblock, curname, report;
    var text := line;
    if IsBlank(line) {
      block := Empty;
    }
    if StartsWith(line, HEADER_MARKER) {
      block := Header;
    } else if StartsWith(line, CHECK_MARKER) {
      block := Check;
    } else if StartsWith(line, VARIABLE_PREFIX) {
      block := Check;
      name := line[|VARIABLE_PREFIX|..];
    } else if StartsWith(line, WARN_PREFIX) {
      block := Warning;
      text := line[|WARN_PREFIX|..];
      next := next.(nwarnings := next.nwarnings + 1);
    } else if StartsWith(line, ERROR_PREFIX) {
      block := Error;
      text := line[|ERROR_PREFIX|..];
      next := next.(nerrors := next.nerrors + 1);
    } else if StartsWith(line, INFO_PREFIX) {
      block := Info;
      text := line[|INFO_PREFIX|..];
      next := next.(ninfo := next.ninfo + 1);
    } else if block == Header {
      next := next.(header := next.header + line + "\n");
    } else if StartsWith(line, SUMMARY_PREFIX) {
      block := Summary;
    }
    if block == Error || block == Info || block == Warning {
      if name != "" {
        text := "Variable " + name + ": " + text;
      }
      next := next.(messages := next.messages + [Message(CATEGORY, "", text, BlockSeverity(block))]);
    }
  }

  /**
    The loop over the checker's output lines: it counts one finding per line
    with a severity prefix, copies header lines, and files every line of a
    block of findings as a message.
   */
  method ParseCheckerOutput(lines: seq<string>) returns (report: CfReport)
    ensures report.nerrors == CountPrefixed(lines, ERROR_PREFIX)
    ensures report.nwarnings == CountPrefixed(lines, WARN_PREFIX)
    ensures report.ninfo == CountPrefixed(lines, INFO_PREFIX)
    ensures report.header == HeaderText(lines)
    ensures report.messages == ExpectedMessages(lines)
  {
    report := EmptyCfReport;
    var curblock := Unset;
    var curname := "";
    for i := 0 to |lines|
      invariant RegionOf(curblock) == RegionAfter(lines[..i])
      invariant curname == LastVariable(lines[..i])
      invariant report.nerrors == CountPrefixed(lines[..i], ERROR_PREFIX)
      invariant report.nwarnings == CountPrefixed(lines[..i], WARN_PREFIX)
      invariant report.ninfo == CountPrefixed(lines[..i], INFO_PREFIX)
      invariant report.header == HeaderText(lines[..i])
      invariant report.messages == ExpectedMessages(lines[..i])
    {
      assert Front(lines[..i + 1]) == lines[..i] && Last(lines[..i + 1]) == lines[i];
      curblock, curname, report := ParseLine(curblock, curname, report, lines[i]);
    }
    assert lines[..|lines|] == lines;
  }

  /**
    The CF section as the report holds it: `output` is the text the checker
    library printed, or `None` when the library raised, in which case the
    section holds exactly one ERROR message and `nerrors` is one.
   */
  function CfSection(output: Option<string>): CfReport {
    match output
    case None => CfReport(1, 0, 0, "", [Message(CATEGORY, "", EXCEPTION_TEXT, ERROR)])
    case Some(data) =>
      var lines := SplitLines(data);
      CfReport(CountPrefixed(lines, ERROR_PREFIX), CountPrefixed(lines, INFO_PREFIX),
               CountPrefixed(lines, WARN_PREFIX), HeaderText(lines), ExpectedMessages(lines))
  }

  /** The `try`/`except` around the checker run and the parser loop. */
  method CfCheckSection(output: Option<string>) returns (report: CfReport)
    ensures report == CfSection(output)
    ensures output.None? ==>
      report == EmptyCfReport.(nerrors := EmptyCfReport.nerrors + 1,
                               messages := EmptyCfReport.messages + [Message(CATEGORY, "", EXCEPTION_TEXT, ERROR)])
  {
    match output
    case Some(data) =>
      report := ParseCheckerOutput(SplitLines(data));
    case None =>
      report := EmptyCfReport;
      report := report.(nerrors := report.nerrors + 1);
      report := report.(messages := report.messages + [Message(CATEGORY, "", EXCEPTION_TEXT, ERROR)]);
  }
}

/** Properties of the CF-section parser's output, stated over the whole input. */
module CfCheckParserProperties {
  import opened Strings
  import opened Messages
  import opened CfCheckParser

  /** The prefix that opens a finding of each severity. */
  function PrefixOf(severity: string): string
    requires IsKnownSeverity(severity)
  {
    if severity == WARNING then WARN_PREFIX else if severity == ERROR then ERROR_PREFIX else INFO_PREFIX
  }

  lemma Regroup(a: string, b: string, c: string, d: string)
    ensures a + b + (c + d) == a + (b + c + d)
  {
  }

  /** `before + [x] + after` with its last line split off. */
  lemma SplitOffLast(before: seq<string>, x: string, after: seq<string>)
    ensures after == [] ==> before + [x] + after == before + [x]
    ensures after != [] ==>
      after == after[..|after| - 1] + [after[|after| - 1]] &&
      before + [x] + after == (before + [x] + after[..|after| - 1]) + [after[|after| - 1]]
  {
    if after != [] {
      var rest, last := after[..|after| - 1], after[|after| - 1];
      assert after == rest + [last];
      assert before + [x] + (rest + [last]) == (before + [x] + rest) + [last];
    }
  }

  /** The line-by-line description, one line further. */
  lemma Extend(front: seq<string>, line: string)
    ensures RegionAfter(front + [line]) == NextRegion(RegionAfter(front), line)
    ensures LastVariable(front + [line]) == NextName(LastVariable(front), line)
    ensures ExpectedMessages(front + [line])
         == ExpectedMessages(front) + NewMessages(RegionAfter(front), LastVariable(front), line)
  {
    assert Front(front + [line]) == front && Last(front + [line]) == line;
  }

  /** The header, one line further. */
  lemma ExtendHeader(front: seq<string>, line: string)
    ensures RegionAfter(front + [line]) == NextRegion(RegionAfter(front), line)
    ensures HeaderText(front + [line]) == HeaderText(front) + HeaderAddition(RegionAfter(front), line)
  {
    assert Front(front + [line]) == front && Last(front + [line]) == line;
  }

  /** A line opens a finding of a severity exactly when it begins with that severity's prefix. */
  lemma ClassifyByPrefix(line: string, severity: string)
    requires IsKnownSeverity(severity)
    ensures StartsWith(line, PrefixOf(severity)) <==> Classify(line).Finding? && Classify(line).severity == severity
    ensures StartsWith(line, PrefixOf(severity)) ==> Classify(line).text == line[|PrefixOf(severity)|..]
  {
    ClassifyFinding(line);
  }

  /** A line declares a variable exactly when it begins with `Checking variable: `. */
  lemma ClassifyVariable(line: string)
    ensures StartsWith(line, VARIABLE_PREFIX) <==> Classify(line).VariableDecl?
    ensures StartsWith(line, VARIABLE_PREFIX) ==> Classify(line).name == line[|VARIABLE_PREFIX|..]
  {
    PrefixFacts(line);
  }

  /**
    Every message is a GENERAL one with an empty documentation link and one of
    the three known severities, and so is every block of findings.
   */
  lemma {:induction false} MessagesWellFormed(lines: seq<string>)
    ensures RegionAfter(lines).InFindings? ==> IsKnownSeverity(RegionAfter(lines).severity)
    ensures forall m | m in ExpectedMessages(lines) ::
      m.category == CATEGORY && m.documentationLink == "" && IsKnownSeverity(m.severity)
  {
    if lines != [] {
      MessagesWellFormed(Front(lines));
      ClassifyFinding(Last(lines));
    }
  }

  /** The messages one line adds hold at least one of a severity when the line has that severity's prefix. */
  lemma NewMessagesCover(before: Region, name: string, line: string, severity: string)
    requires IsKnownSeverity(severity)
    ensures CountSeverity(NewMessages(before, name, line), severity) >= if StartsWith(line, PrefixOf(severity)) then 1 else 0
  {
    ClassifyByPrefix(line, severity);
    if StartsWith(line, PrefixOf(severity)) {
      var added := NewMessages(before, name, line);
      assert |added| == 1 && added[0].severity == severity;
      assert added[..0] == [];
    }
  }

  /** Each counted finding of a severity has its own message of that severity. */
  lemma {:induction false} MessagesCoverCount(lines: seq<string>, severity: string)
    requires IsKnownSeverity(severity)
    ensures CountSeverity(ExpectedMessages(lines), severity) >= CountPrefixed(lines, PrefixOf(severity))
  {
    if lines != [] {
      var front, line := Front(lines), Last(lines);
      var added := NewMessages(RegionAfter(front), LastVariable(front), line);
      MessagesCoverCount(front, severity);
      CountSeverityAppend(ExpectedMessages(front), added, severity);
      NewMessagesCover(RegionAfter(front), LastVariable(front), line, severity);
    }
  }

  /**
    Further lines of a block only add messages, so a tally of the parsed
    messages never comes out below the parser's counters; and since all
    messages have a known severity, that tally accounts for every message.
   */
  lemma MessagesCoverCounters(lines: seq<string>)
    ensures CountSeverity(ExpectedMessages(lines), ERROR) >= CountPrefixed(lines, ERROR_PREFIX)
    ensures CountSeverity(ExpectedMessages(lines), WARNING) >= CountPrefixed(lines, WARN_PREFIX)
    ensures CountSeverity(ExpectedMessages(lines), INFO) >= CountPrefixed(lines, INFO_PREFIX)
    ensures SeverityCounts(ExpectedMessages(lines)).Total() == |ExpectedMessages(lines)|
  {
    MessagesWellFormed(lines);
    TallyBound(ExpectedMessages(lines));
    MessagesCoverCount(lines, ERROR);
    MessagesCoverCount(lines, WARNING);
    MessagesCoverCount(lines, INFO);
  }

  /** The messages of some lines begin the messages of those lines and any more. */
  lemma {:induction false} MessagesOfPrefix(lines: seq<string>, more: seq<string>)
    ensures ExpectedMessages(lines) <= ExpectedMessages(lines + more)
  {
    if more == [] {
      assert lines + more == lines;
    } else {
      var rest, last := more[..|more| - 1], more[|more| - 1];
      MessagesOfPrefix(lines, rest);
      assert lines + more == (lines + rest) + [last];
      Extend(lines + rest, last);
    }
  }

  /**
    A line with a severity prefix is reported as a message of that severity
    whose text is the line without its prefix, labelled with the variable
    current at that line.
   */
  lemma FindingReported(before: seq<string>, line: string, after: seq<string>, severity: string)
    requires IsKnownSeverity(severity) && StartsWith(line, PrefixOf(severity))
    ensures var msgs := ExpectedMessages(before + [line] + after);
      |ExpectedMessages(before)| < |msgs| &&
      msgs[|ExpectedMessages(before)|]
        == Message(CATEGORY, "", Label(LastVariable(before), line[|PrefixOf(severity)|..]), severity)
  {
    var m := Message(CATEGORY, "", Label(LastVariable(before), line[|PrefixOf(severity)|..]), severity);
    ClassifyByPrefix(line, severity);
    Extend(before, line);
    MessagesOfPrefix(before + [line], after);
    assert ExpectedMessages(before + [line] + after)[|ExpectedMessages(before)|] == m;
  }

  /**
    The variable name is the one from the latest `Checking variable: ` line;
    no other line resets it.
   */
  lemma {:induction false} LatestVariable(before: seq<string>, decl: string, after: seq<string>)
    requires StartsWith(decl, VARIABLE_PREFIX)
    requires forall l | l in after :: !StartsWith(l, VARIABLE_PREFIX)
    ensures LastVariable(before + [decl] + after) == decl[|VARIABLE_PREFIX|..]
  {
    if after == [] {
      SplitOffLast(before, decl, after);
      Extend(before, decl);
      ClassifyVariable(decl);
    } else {
      var rest, last := after[..|after| - 1], after[|after| - 1];
      assert forall l | l in rest :: l in after;
      LatestVariable(before, decl, rest);
      SplitOffLast(before, decl, after);
      Extend(before + [decl] + rest, last);
      ClassifyVariable(last);
    }
  }

  /** Before any `Checking variable: ` line, messages carry no variable label. */
  lemma {:induction false} NoVariableYet(lines: seq<string>)
    requires forall l | l in lines :: !StartsWith(l, VARIABLE_PREFIX)
    ensures LastVariable(lines) == ""
  {
    if lines != [] {
      ClassifyVariable(Last(lines));
      NoVariableYet(Front(lines));
    }
  }

  /**
    A further line of a block of findings becomes one more message of the
    block's severity, with the whole line as text, and no counter moves.
   */
  lemma ContinuationReported(lines: seq<string>, line: string)
    requires RegionAfter(lines).InFindings? && Classify(line) == Other
    ensures ExpectedMessages(lines + [line])
         == ExpectedMessages(lines) + [Message(CATEGORY, "", Label(LastVariable(lines), line), RegionAfter(lines).severity)]
    ensures RegionAfter(lines + [line]) == RegionAfter(lines)
    ensures CountPrefixed(lines + [line], ERROR_PREFIX) == CountPrefixed(lines, ERROR_PREFIX)
    ensures CountPrefixed(lines + [line], WARN_PREFIX) == CountPrefixed(lines, WARN_PREFIX)
    ensures CountPrefixed(lines + [line], INFO_PREFIX) == CountPrefixed(lines, INFO_PREFIX)
  {
    assert Front(lines + [line]) == lines;
    ClassifyFinding(line);
  }

  /** The messages a block's further lines add: each whole line, labelled, under the block's severity. */
  function ContinuationMessages(name: string, severity: string, lines: seq<string>): seq<Message> {
    seq(|lines|, i requires 0 <= i < |lines| => Message(CATEGORY, "", Label(name, lines[i]), severity))
  }

  lemma ContinuationMessagesAppend(name: string, severity: string, lines: seq<string>, line: string)
    ensures ContinuationMessages(name, severity, lines + [line])
         == ContinuationMessages(name, severity, lines) + [Message(CATEGORY, "", Label(name, line), severity)]
  {
  }

  /** A line with a severity prefix opens a block of that severity with one message. */
  lemma FindingStep(front: seq<string>, finding: string, severity: string)
    requires IsKnownSeverity(severity) && StartsWith(finding, PrefixOf(severity))
    ensures RegionAfter(front + [finding]) == InFindings(severity)
    ensures LastVariable(front + [finding]) == LastVariable(front)
    ensures ExpectedMessages(front + [finding])
         == ExpectedMessages(front)
            + [Message(CATEGORY, "", Label(LastVariable(front), finding[|PrefixOf(severity)|..]), severity)]
  {
    ClassifyByPrefix(finding, severity);
    Extend(front, finding);
  }

  /** Inside a block, an ordinary line keeps the block and the variable, and adds one message. */
  lemma ContinuationStep(front: seq<string>, line: string, severity: string)
    requires RegionAfter(front) == InFindings(severity) && Classify(line) == Other
    ensures RegionAfter(front + [line]) == InFindings(severity)
    ensures LastVariable(front + [line]) == LastVariable(front)
    ensures ExpectedMessages(front + [line])
         == ExpectedMessages(front) + [Message(CATEGORY, "", Label(LastVariable(front), line), severity)]
  {
    Extend(front, line);
  }

  lemma AppendRegroup(a: seq<Message>, b: seq<Message>, m: Message)
    ensures a + b + [m] == a + (b + [m])
  {
  }

  /**
    A line with a severity prefix opens a block of findings of that severity:
    it and every ordinary line after it become messages of that severity, in
    order, labelled with the variable current at the prefixed line.
   */
  lemma {:induction false} FindingBlock(before: seq<string>, finding: string, cont: seq<string>, severity: string)
    requires IsKnownSeverity(severity) && StartsWith(finding, PrefixOf(severity))
    requires forall l | l in cont :: Classify(l) == Other
    ensures RegionAfter(before + [finding] + cont) == InFindings(severity)
    ensures LastVariable(before + [finding] + cont) == LastVariable(before)
    ensures ExpectedMessages(before + [finding] + cont)
         == ExpectedMessages(before)
            + [Message(CATEGORY, "", Label(LastVariable(before), finding[|PrefixOf(severity)|..]), severity)]
            + ContinuationMessages(LastVariable(before), severity, cont)
  {
    var name := LastVariable(before);
    var head := ExpectedMessages(before) + [Message(CATEGORY, "", Label(name, finding[|PrefixOf(severity)|..]), severity)];
    SplitOffLast(before, finding, cont);
    if cont == [] {
      FindingStep(before, finding, severity);
      assert head + ContinuationMessages(name, severity, cont) == head;
    } else {
      var rest, last := cont[..|cont| - 1], cont[|cont| - 1];
      assert forall l | l in rest :: l in cont;
      FindingBlock(before, finding, rest, severity);
      assert last in cont;
      ContinuationStep(before + [finding] + rest, last, severity);
      ContinuationMessagesAppend(name, severity, rest, last);
      AppendRegroup(head, ContinuationMessages(name, severity, rest), Message(CATEGORY, "", Label(name, last), severity));
    }
  }

  /** A blank line, or an ordinary line outside any block, leaves the parser outside, adding nothing. */
  lemma OutsideStep(front: seq<string>, line: string)
    requires Classify(line) == Blank || (RegionAfter(front) == Outside && Classify(line) == Other)
    ensures RegionAfter(front + [line]) == Outside
    ensures ExpectedMessages(front + [line]) == ExpectedMessages(front)
    ensures HeaderText(front + [line]) == HeaderText(front)
  {
    Extend(front, line);
    ExtendHeader(front, line);
  }

  /**
    A blank line ends any block: it and the ordinary lines after it add
    neither messages nor header text.
   */
  lemma {:induction false} BlankEndsBlock(before: seq<string>, blank: string, after: seq<string>)
    requires Classify(blank) == Blank
    requires forall l | l in after :: Classify(l) == Other
    ensures RegionAfter(before + [blank] + after) == Outside
    ensures ExpectedMessages(before + [blank] + after) == ExpectedMessages(before)
    ensures HeaderText(before + [blank] + after) == HeaderText(before)
  {
    if after == [] {
      SplitOffLast(before, blank, after);
      OutsideStep(before, blank);
    } else {
      var rest, last := after[..|after| - 1], after[|after| - 1];
      assert forall l | l in rest :: l in after;
      BlankEndsBlock(before, blank, rest);
      var front := before + [blank] + rest;
      SplitOffLast(before, blank, after);
      OutsideStep(front, last);
    }
  }

  /** The header marker opens the header and is not part of it. */
  lemma HeaderStart(front: seq<string>, marker: string)
    requires StartsWith(marker, HEADER_MARKER)
    ensures RegionAfter(front + [marker]) == InHeader
    ensures HeaderText(front + [marker]) == HeaderText(front)
  {
    ExtendHeader(front, marker);
    PrefixFacts(marker);
    assert Classify(marker) == HeaderMarker;
  }

  /** Inside the header, an ordinary or summary line is appended with its "
". */
  lemma HeaderStep(front: seq<string>, line: string)
    requires RegionAfter(front) == InHeader && IsHeaderBody(line)
    ensures RegionAfter(front + [line]) == InHeader
    ensures HeaderText(front + [line]) == HeaderText(front) + (line + "\n")
  {
    ExtendHeader(front, line);
  }

  /**
    After a header marker, every following line up to the first blank line or
    marker is copied into the header with a "\n" after it; the marker itself is not.
   */
  lemma {:induction false} HeaderCollected(before: seq<string>, marker: string, body: seq<string>)
    requires StartsWith(marker, HEADER_MARKER)
    requires forall j | 0 <= j < |body| :: IsHeaderBody(body[j])
    ensures RegionAfter(before + [marker] + body) == InHeader
    ensures HeaderText(before + [marker] + body) == HeaderText(before) + JoinLines(body)
  {
    if body == [] {
      SplitOffLast(before, marker, body);
      HeaderStart(before, marker);
      assert HeaderText(before) + JoinLines(body) == HeaderText(before);
    } else {
      var rest, last := body[..|body| - 1], body[|body| - 1];
      assert forall j | 0 <= j < |rest| :: rest[j] == body[j];
      HeaderCollected(before, marker, rest);
      var front := before + [marker] + rest;
      SplitOffLast(before, marker, body);
      HeaderStep(front, last);
      JoinLinesAppend(rest, last);
      Regroup(HeaderText(before), JoinLines(rest), last, "\n");
    }
  }

  /**
    Once a blank line or a marker other than the header marker has been seen,
    nothing more reaches the header until the next header marker.
   */
  lemma {:induction false} HeaderClosed(before: seq<string>, closer: string, after: seq<string>)
    requires Classify(closer) in {Blank, CheckMarker} || Classify(closer).VariableDecl? || Classify(closer).Finding?
    requires forall l | l in after :: !StartsWith(l, HEADER_MARKER)
    ensures RegionAfter(before + [closer] + after) != InHeader
    ensures HeaderText(before + [closer] + after) == HeaderText(before)
  {
    if after == [] {
      SplitOffLast(before, closer, after);
      ExtendHeader(before, closer);
    } else {
      var rest, last := after[..|after| - 1], after[|after| - 1];
      assert forall l | l in rest :: l in after;
      HeaderClosed(before, closer, rest);
      SplitOffLast(before, closer, after);
      ExtendHeader(before + [closer] + rest, last);
      PrefixFacts(last);
    }
  }
}
