/**
  The JSON report `AdagucChecker._checker` prints: the CF section, the
  GetCapabilities section, one section per layer, and top-level counters
  that add them all up (adaguc-checker.py:100-128, 229-256, 258-384).

  The HTTP requests, the XML of the capabilities document, image compositing
  and `checker_report.txt` are not modelled as such: what the checker reads
  back from them comes in as values (`ReportFile`, `LayerInput`).
 */
module CheckerReport {
  import opened Wrappers
  import opened Messages
  import opened CfCheckParser
  import opened WmsRequests

  /**
    What the checker reads from `checker_report.txt` after a request: the
    report name, the counters (0 for a counter the file leaves out) and the
    message list, if the file has these keys.
   */
  datatype ReportFile = ReportFile(reportname: Option<string>, preset: Counts, messages: Option<seq<Message>>)

  /** The GetCapabilities section and each layer section. */
  datatype SectionReport = SectionReport(reportname: string, counts: Counts, messages: seq<Message>)

  /** The exceptions that abort the whole run. */
  datatype Crash =
    | MissingMessages   // KeyError: the report has no "messages"
    | UnreadableReport  // ValueError: json.loads("") when there is no report file
    | NoLayers          // TypeError: iterating over None when the capabilities could not be read
    | NoLayerImage      // UnboundLocalError: getmap returns `imgdata` after its request failed

  /** Raw image bytes; only whether a request returned one matters here. */
  type Image = seq<bv8>

  /** What the requests for one layer returned. */
  datatype LayerFetch = LayerFetch(image: Option<Image>, background: Option<Image>, countries: Option<Image>,
                                   report: Option<ReportFile>)

  datatype LayerInput = LayerInput(layer: Layer, fetch: LayerFetch)

  /** The whole report: the totals and the sections the selected checks produce. */
  datatype Report = Report(totals: Counts, cfcheck: Option<CfReport>, getcap: Option<SectionReport>,
                           getmap: Option<seq<SectionReport>>)

  const GETCAP_REPORTNAME := "GetCapabilities"
  const NO_RESPONSE_TEXT :=
    "No response from mapserver; mapimage could not be shown. This is not a Layer report error"
  const NoResponseWarning := Message(CATEGORY, "", NO_RESPONSE_TEXT, WARNING)

  function CfCounts(report: CfReport): Counts {
    Counts(report.nerrors, report.nwarnings, report.ninfo)
  }

  /** The counts of all layer sections added up. */
  function SumCounts(sections: seq<SectionReport>): Counts {
    if sections == [] then NoCounts()
    else SumCounts(sections[..|sections| - 1]).Plus(sections[|sections| - 1].counts)
  }

  // ---------------------------------------------------------------------------
  // The GetCapabilities section.
  // ---------------------------------------------------------------------------

  /**
    The GetCapabilities section: the file's counters are not reset, so the
    tally is added to whatever the file already holds.
   */
  function GetCapSection(file: Option<ReportFile>): Result<SectionReport, Crash> {
    if file.None? || file.value.messages.None? then Failure(MissingMessages)
    else
      var msgs := file.value.messages.value;
      var name := if file.value.reportname.Some? then file.value.reportname.value else GETCAP_REPORTNAME;
      Success(SectionReport(name, file.value.preset.Plus(SeverityCounts(msgs)), msgs))
  }

  method GetCapabilitiesReport(file: Option<ReportFile>) returns (r: Result<SectionReport, Crash>)
    ensures r == GetCapSection(file)
  {
    var section := SectionReport(GETCAP_REPORTNAME, NoCounts(), []);
    if file.Some? {
      if file.value.reportname.Some? {
        section := section.(reportname := file.value.reportname.value);
      }
      section := section.(counts := file.value.preset);
    }
    if file.None? || file.value.messages.None? {
      return Failure(MissingMessages);
    }
    section := section.(messages := file.value.messages.value);
    var counts := Tally(section.counts, section.messages);
    section := section.(counts := counts);
    return Success(section);
  }

  // ---------------------------------------------------------------------------
  // The layer sections.
  // ---------------------------------------------------------------------------

  /** Either background request came back empty. */
  predicate MissingBaseLayer(fetch: LayerFetch) {
    fetch.background.None? || fetch.countries.None?
  }

  /**
    A layer section as it ends up in the report: the layer's messages, one
    more WARNING when a background image is missing, and counters recounted
    from scratch over that list.
   */
  function LayerSection(input: LayerInput): Result<SectionReport, Crash> {
    var fetch := input.fetch;
    if fetch.image.None? then Failure(NoLayerImage)
    else if fetch.report.None? then Failure(UnreadableReport)
    else if fetch.report.value.messages.None? then Failure(MissingMessages)
    else
      var msgs := fetch.report.value.messages.value + if MissingBaseLayer(fetch) then [NoResponseWarning] else [];
      Success(SectionReport(input.layer.name, SeverityCounts(msgs), msgs))
  }

  /**
    `createlayerreport`: the layer's own report, renamed after the layer, its
    counters reset and recounted.
   */
  method CreateLayerReport(layername: string, file: Option<ReportFile>) returns (r: Result<SectionReport, Crash>)
    ensures file.None? ==> r == Failure(UnreadableReport)
    ensures file.Some? && file.value.messages.None? ==> r == Failure(MissingMessages)
    ensures file.Some? && file.value.messages.Some? ==>
      r == Success(SectionReport(layername, SeverityCounts(file.value.messages.value), file.value.messages.value))
  {
    if file.None? {
      return Failure(UnreadableReport);
    }
    if file.value.messages.None? {
      return Failure(MissingMessages);
    }
    var msgs := file.value.messages.value;
    var counts := Tally(NoCounts(), msgs);
    return Success(SectionReport(layername, counts, msgs));
  }

  /**
    The recount after the warning: the layer's counters start again from 0,
    and each counted message bumps the report's totals too.
   */
  method RecountLayer(section: SectionReport, totals: Counts) returns (recounted: SectionReport, newTotals: Counts)
    ensures recounted == section.(counts := SeverityCounts(section.messages))
    ensures newTotals == totals.Plus(SeverityCounts(section.messages))
  {
    var msgs := section.messages;
    var counts := NoCounts();
    newTotals := totals;
    for i := 0 to |msgs|
      invariant counts == SeverityCounts(msgs[..i])
      invariant newTotals == totals.Plus(counts)
    {
      assert msgs[..i + 1][..i] == msgs[..i];
      if msgs[i].severity == ERROR {
        counts := counts.(nerrors := counts.nerrors + 1);
        newTotals := newTotals.(nerrors := newTotals.nerrors + 1);
      } else if msgs[i].severity == WARNING {
        counts := counts.(nwarnings := counts.nwarnings + 1);
        newTotals := newTotals.(nwarnings := newTotals.nwarnings + 1);
      } else if msgs[i].severity == INFO {
        counts := counts.(ninfo := counts.ninfo + 1);
        newTotals := newTotals.(ninfo := newTotals.ninfo + 1);
      }
    }
    assert msgs[..|msgs|] == msgs;
    recounted := section.(counts := counts);
  }

  /** One turn of the layer loop: fetch, build the section, warn, recount. */
  method LayerReport(input: LayerInput, totals: Counts) returns (r: Result<SectionReport, Crash>, newTotals: Counts)
    ensures r == LayerSection(input)
    ensures r.Success? ==> newTotals == totals.Plus(r.value.counts)
  {
    newTotals := totals;
    if input.fetch.image.None? {
      return Failure(NoLayerImage), newTotals;
    }
    var created := CreateLayerReport(input.layer.name, input.fetch.report);
    if created.Failure? {
      return created, newTotals;
    }
    var section := created.value;
    if MissingBaseLayer(input.fetch) {
      section := section.(messages := section.messages + [NoResponseWarning]);
    } else {
      assert section.messages + [] == section.messages;
    }
    section, newTotals := RecountLayer(section, newTotals);
    return Success(section), newTotals;
  }

  // ---------------------------------------------------------------------------
  // The whole report.
  // ---------------------------------------------------------------------------

  /**
    The layer sections in order; the first layer that raises ends the run
    with its exception.
   */
  function LayerSections(inputs: seq<LayerInput>): Result<seq<SectionReport>, Crash> {
    if inputs == [] then Success([])
    else
      var front := LayerSections(inputs[..|inputs| - 1]);
      if front.Failure? then front
      else
        var last := LayerSection(inputs[|inputs| - 1]);
        if last.Failure? then Failure(last.error) else Success(front.value + [last.value])
  }

  /** Once a layer has raised, later layers change nothing. */
  lemma {:induction false} LayerSectionsFailureSticks(inputs: seq<LayerInput>, more: seq<LayerInput>)
    requires LayerSections(inputs).Failure?
    ensures LayerSections(inputs + more) == LayerSections(inputs)
  {
    if more != [] {
      var n := |more| - 1;
      assert (inputs + more)[..|inputs + more| - 1] == inputs + more[..n];
      LayerSectionsFailureSticks(inputs, more[..n]);
    } else {
      assert inputs + more == inputs;
    }
  }

  /** One more layer: it either ends the run with its exception or is appended. */
  lemma LayerSectionsStep(inputs: seq<LayerInput>, i: nat, done: seq<SectionReport>)
    requires i < |inputs| && LayerSections(inputs[..i]) == Success(done)
    ensures LayerSection(inputs[i]).Failure? ==> LayerSections(inputs) == Failure(LayerSection(inputs[i]).error)
    ensures LayerSection(inputs[i]).Success? ==>
      var section := LayerSection(inputs[i]).value;
      LayerSections(inputs[..i + 1]) == Success(done + [section]) &&
      SumCounts(done + [section]) == SumCounts(done).Plus(section.counts)
  {
    assert inputs[..i + 1][..i] == inputs[..i];
    if LayerSection(inputs[i]).Failure? {
      LayerSectionsFailureSticks(inputs[..i + 1], inputs[i + 1..]);
      assert inputs[..i + 1] + inputs[i + 1..] == inputs;
    } else {
      var next := done + [LayerSection(inputs[i]).value];
      assert next[..|next| - 1] == done;
    }
  }

  /** The layer loop, adding every layer's counters to the running totals. */
  method LayersReport(inputs: seq<LayerInput>, base: Counts)
    returns (r: Result<seq<SectionReport>, Crash>, totals: Counts)
    ensures r == LayerSections(inputs)
    ensures r.Success? ==> totals == base.Plus(SumCounts(r.value))
  {
    totals := base;
    var getmap: seq<SectionReport> := [];
    for i := 0 to |inputs|
      invariant LayerSections(inputs[..i]) == Success(getmap)
      invariant totals == base.Plus(SumCounts(getmap))
    {
      LayerSectionsStep(inputs, i, getmap);
      var layer: Result<SectionReport, Crash>;
      layer, totals := LayerReport(inputs[i], totals);
      if layer.Failure? {
        return Failure(layer.error), totals;
      }
      getmap := getmap + [layer.value];
    }
    assert inputs[..|inputs|] == inputs;
    return Success(getmap), totals;
  }

  /** The CF section, present when the standard checks are selected. */
  function CfPart(checks: seq<string>, cfOutput: Option<string>): Option<CfReport> {
    if RunsStandard(checks) then Some(CfSection(cfOutput)) else None
  }

  function CfTotals(cf: Option<CfReport>): Counts {
    if cf.Some? then CfCounts(cf.value) else NoCounts()
  }

  /** The GetCapabilities section and the layer sections of the ADAGUC checks. */
  function AdagucPart(getcapFile: Option<ReportFile>, layers: Option<seq<LayerInput>>)
    : Result<(SectionReport, seq<SectionReport>), Crash>
  {
    var cap := GetCapSection(getcapFile);
    if cap.Failure? then Failure(cap.error)
    else if layers.None? then Failure(NoLayers)
    else
      var sections := LayerSections(layers.value);
      if sections.Failure? then Failure(sections.error) else Success((cap.value, sections.value))
  }

  /**
    `_checker` after the checker run: the CF section when the standard checks
    are selected, then, when the ADAGUC checks are, the GetCapabilities
    section and one section per layer, with totals over every section.
    `layers` is `None` when the capabilities document could not be read.
   */
  function Checked(checks: seq<string>, cfOutput: Option<string>, getcapFile: Option<ReportFile>,
                   layers: Option<seq<LayerInput>>): Result<Report, Crash>
  {
    var cf := CfPart(checks, cfOutput);
    if !RunsAdaguc(checks) then Success(Report(CfTotals(cf), cf, None, None))
    else
      var adaguc := AdagucPart(getcapFile, layers);
      if adaguc.Failure? then Failure(adaguc.error)
      else
        var (cap, sections) := adaguc.value;
        Success(Report(CfTotals(cf).Plus(cap.counts).Plus(SumCounts(sections)), cf, Some(cap), Some(sections)))
  }

  /** The ADAGUC half of `_checker`, adding to the totals of the CF half. */
  method AdagucChecks(getcapFile: Option<ReportFile>, layers: Option<seq<LayerInput>>, base: Counts)
    returns (r: Result<(SectionReport, seq<SectionReport>), Crash>, totals: Counts)
    ensures r == AdagucPart(getcapFile, layers)
    ensures r.Success? ==> totals == base.Plus(r.value.0.counts).Plus(SumCounts(r.value.1))
  {
    totals := base;
    var cap := GetCapabilitiesReport(getcapFile);
    if cap.Failure? {
      return Failure(cap.error), totals;
    }
    totals := totals.Plus(cap.value.counts);
    if layers.None? {
      return Failure(NoLayers), totals;
    }
    var getmap;
    getmap, totals := LayersReport(layers.value, totals);
    if getmap.Failure? {
      return Failure(getmap.error), totals;
    }
    return Success((cap.value, getmap.value)), totals;
  }

  method Check(checksOption: string, cfOutput: Option<string>, getcapFile: Option<ReportFile>,
               layers: Option<seq<LayerInput>>)
    returns (r: Result<Report, Crash>)
    ensures r == Checked(SelectedChecks(checksOption), cfOutput, getcapFile, layers)
  {
    var checks := SelectedChecks(checksOption);
    var totals := NoCounts();
    var cfcheck: Option<CfReport> := None;
    if RunsStandard(checks) {
      var cf := CfCheckSection(cfOutput);
      totals := CfCounts(cf);
      cfcheck := Some(cf);
    }
    if !RunsAdaguc(checks) {
      return Success(Report(totals, cfcheck, None, None));
    }
    var adaguc;
    adaguc, totals := AdagucChecks(getcapFile, layers, totals);
    if adaguc.Failure? {
      return Failure(adaguc.error);
    }
    return Success(Report(totals, cfcheck, Some(adaguc.value.0), Some(adaguc.value.1)));
  }

  // ---------------------------------------------------------------------------
  // Properties.
  // ---------------------------------------------------------------------------

  /**
    A missing background image adds exactly one WARNING to the layer: the
    warning count is one more than the layer's own, the others are its own.
   */
  lemma MissingBaseLayerWarns(input: LayerInput)
    requires LayerSection(input).Success? && MissingBaseLayer(input.fetch)
    ensures var own := input.fetch.report.value.messages.value;
      LayerSection(input).value.messages == own + [NoResponseWarning] &&
      LayerSection(input).value.counts == SeverityCounts(own).(nwarnings := SeverityCounts(own).nwarnings + 1)
  {
    var own := input.fetch.report.value.messages.value;
    SeverityCountsAppend(own, [NoResponseWarning]);
    assert [NoResponseWarning][..0] == [];
  }

  /** With both background images present the layer keeps its own messages and counts. */
  lemma BaseLayersPresentNoWarning(input: LayerInput)
    requires LayerSection(input).Success? && !MissingBaseLayer(input.fetch)
    ensures LayerSection(input).value.messages == input.fetch.report.value.messages.value
    ensures LayerSection(input).value.counts == SeverityCounts(input.fetch.report.value.messages.value)
  {
    assert input.fetch.report.value.messages.value + [] == input.fetch.report.value.messages.value;
  }

  /** A layer's three counters never exceed its number of messages. */
  lemma LayerCountsBounded(input: LayerInput)
    requires LayerSection(input).Success?
    ensures LayerSection(input).value.counts.Total() <= |LayerSection(input).value.messages|
  {
    TallyBound(LayerSection(input).value.messages);
  }

  /** The GetCapabilities counters are the file's own plus a tally, never less than the file's. */
  lemma GetCapCountsAtLeastPreset(file: Option<ReportFile>)
    requires GetCapSection(file).Success?
    ensures var c, p := GetCapSection(file).value.counts, file.value.preset;
      c.nerrors >= p.nerrors && c.nwarnings >= p.nwarnings && c.ninfo >= p.ninfo
    ensures GetCapSection(file).value.counts.Total()
         <= file.value.preset.Total() + |GetCapSection(file).value.messages|
  {
    TallyBound(file.value.messages.value);
  }
  /**
    The layer loop either reports every layer, each as `LayerSection` makes it,
    or stops at the first layer that raises, with that layer's exception.
   */
  lemma {:induction false} LayerSectionsInOrder(inputs: seq<LayerInput>)
    ensures LayerSections(inputs).Success? <==> forall i | 0 <= i < |inputs| :: LayerSection(inputs[i]).Success?
    ensures LayerSections(inputs).Success? ==>
      |LayerSections(inputs).value| == |inputs| &&
      forall i | 0 <= i < |inputs| :: LayerSections(inputs).value[i] == LayerSection(inputs[i]).value
    ensures LayerSections(inputs).Failure? ==>
      exists i | 0 <= i < |inputs| ::
        LayerSection(inputs[i]) == Failure(LayerSections(inputs).error) &&
        forall k | 0 <= k < i :: LayerSection(inputs[k]).Success?
  {
    if inputs != [] {
      var n := |inputs| - 1;
      var front := inputs[..n];
      LayerSectionsInOrder(front);
      assert forall i | 0 <= i < n :: front[i] == inputs[i];
      if LayerSections(front).Failure? {
        var i :| 0 <= i < n && LayerSection(front[i]) == Failure(LayerSections(front).error) &&
          forall k | 0 <= k < i :: LayerSection(front[k]).Success?;
        assert LayerSection(inputs[i]).Failure?;
      } else if LayerSection(inputs[n]).Failure? {
        assert LayerSection(inputs[n]) == Failure(LayerSections(inputs).error);
      }
    }
  }

  /** The messages of all layer sections, in order. */
  function AllMessages(sections: seq<SectionReport>): seq<Message> {
    if sections == [] then []
    else AllMessages(sections[..|sections| - 1]) + sections[|sections| - 1].messages
  }

  /** Layer sections whose counters are a tally of their own messages add up to a tally of all of them. */
  lemma {:induction false} SumCountsTally(sections: seq<SectionReport>)
    requires forall i | 0 <= i < |sections| :: sections[i].counts == SeverityCounts(sections[i].messages)
    ensures SumCounts(sections) == SeverityCounts(AllMessages(sections))
  {
    if sections != [] {
      var n := |sections| - 1;
      var front := sections[..n];
      assert forall i | 0 <= i < n :: front[i] == sections[i];
      SumCountsTally(front);
      SeverityCountsAppend(AllMessages(front), sections[n].messages);
      assert SumCounts(sections) == SumCounts(front).Plus(sections[n].counts);
      assert AllMessages(sections) == AllMessages(front) + sections[n].messages;
    } else {
      assert SeverityCounts([]) == NoCounts();
    }
  }

  /**
    The top-level counters: the CF counters, plus the GetCapabilities
    counters, plus one count per ERROR, WARNING and INFO message over all
    layer sections.
   */
  lemma CheckedTotals(checks: seq<string>, cfOutput: Option<string>, getcapFile: Option<ReportFile>,
                      layers: Option<seq<LayerInput>>)
    requires Checked(checks, cfOutput, getcapFile, layers).Success?
    ensures var r := Checked(checks, cfOutput, getcapFile, layers).value;
      r.totals == if r.getmap.None? then CfTotals(r.cfcheck)
                  else CfTotals(r.cfcheck).Plus(r.getcap.value.counts).Plus(SeverityCounts(AllMessages(r.getmap.value)))
  {
    var r := Checked(checks, cfOutput, getcapFile, layers).value;
    if RunsAdaguc(checks) {
      var sections := r.getmap.value;
      LayerSectionsInOrder(layers.value);
      forall i | 0 <= i < |sections|
        ensures sections[i].counts == SeverityCounts(sections[i].messages)
      {
        var msgs := LayerSection(layers.value[i]).value.messages;
        assert sections[i] == SectionReport(layers.value[i].layer.name, SeverityCounts(msgs), msgs);
      }
      SumCountsTally(sections);
    }
  }

  /**
    Which sections the report holds follows the check selection: "standard"
    or "all" gives the CF section, "adaguc" or "all" the GetCapabilities and
    layer sections; only the ADAGUC checks can abort the run.
   */
  lemma CheckedSections(checks: seq<string>, cfOutput: Option<string>, getcapFile: Option<ReportFile>,
                        layers: Option<seq<LayerInput>>)
    ensures var r := Checked(checks, cfOutput, getcapFile, layers);
      (r.Failure? <==>
         RunsAdaguc(checks) &&
         (GetCapSection(getcapFile).Failure? || layers.None? ||
          exists i | 0 <= i < |layers.value| :: LayerSection(layers.value[i]).Failure?)) &&
      (r.Success? ==>
         && r.value.cfcheck == (if RunsStandard(checks) then Some(CfSection(cfOutput)) else None)
         && r.value.getcap == (if RunsAdaguc(checks) then Some(GetCapSection(getcapFile).value) else None)
         && (r.value.getmap.Some? <==> RunsAdaguc(checks))
         && (r.value.getmap.Some? ==>
               |r.value.getmap.value| == |layers.value| &&
               forall i | 0 <= i < |layers.value| :: r.value.getmap.value[i] == LayerSection(layers.value[i]).value))
  {
    if layers.Some? {
      LayerSectionsInOrder(layers.value);
    }
  }
}
