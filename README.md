# adaguc-checker: a Dafny model of the report logic

`adaguc-checker.py` checks a NetCDF file in two ways:

- with the CF conventions checker library (the "standard" checks);
- against an ADAGUC WMS server (the "adaguc" checks).

It prints one JSON report of the results. This project models the logic inside that script that turns the raw results into the report. HTTP, XML, images and files are left out. The modelled logic is:

- **The CF-output parser** (`CfCheckParser`). The text the CF checker printed is split into lines and run through a state machine. The state is the current block and the last `Checking variable:` name. The parser produces a header, a list of `{category, documentationLink, message, severity}` messages and three counters. `ParseCheckerOutput` keeps the loop of the script; `ParseLine` is one turn of it. Both are proved against declarative functions over the whole input: `CountPrefixed`, `HeaderText` and `ExpectedMessages`. `CfCheckParserProperties` proves what those functions mean: which lines count, what each message says, where the header starts and stops. When the checker library raises, the section holds one ERROR message.
- **Severity tallying** (`Messages.Tally`). A report's messages are counted into `nerrors`, `nwarnings` and `ninfo`. This happens for the GetCapabilities report, for each layer report and once more after the missing-base-layer warning.
- **Report aggregation** (`CheckerReport`). This covers:
  - the GetCapabilities section, whose counters in the file are kept and added to;
  - one section per layer, whose counters are reset and recounted;
  - one extra WARNING when a background image could not be fetched;
  - the top-level totals.

  `Check` is `_checker` after the checker run. The exceptions modelled are `Crash` values:
  - a report with no `messages` key;
  - a missing layer report;
  - an unreadable capabilities document;
  - a failed GetMap request.
- **WMS request strings** (`WmsRequests`). This covers:
  - the GetCapabilities, GetMap and background-map queries;
  - the two bounding-box orders: minx,miny,maxx,maxy for the WMS 1.3.0 GetMap on the ADAGUC server, and miny,minx,maxy,maxx for the WMS 1.1.1 background services;
  - the `source=` parameter;
  - the selection of checks from the comma-separated `--checks` option.
- **`StreamToStr`** (`OutputStream`). This is the object that stands in for standard output while the CF checker runs. Its `data` is everything written to it, in order. The parser reads back exactly the lines that were printed, provided no printed line contains `\n` or `\r`.

Python 2 string behaviour is modelled as the script relies on it:

- `strip()` treats space, `\t`, `\n`, `\v`, `\f` and `\r` as whitespace.
- `splitlines()` breaks at `\n`, `\r` and `\r\n`.
- `split(',')` keeps empty parts.
- `sep.join(parts)` puts the separator between the parts.

`curname` starts as `None` and is only ever tested for truthiness, so the model uses the empty string for it.

## Model

| member | source | states |
|---|---|---|
| Strings.SplitJoin | adaguc-checker.py:59 | splitting a comma-joined list of names that contain no comma gives the names back |
| Strings.SplitJoinLines | adaguc-checker.py:269 | `splitlines` recovers lines that were each printed followed by a newline |
| Messages.CountSeverityIsIndexCount | adaguc-checker.py:120-126 | the count of a severity is the number of positions holding a message whose severity is exactly that string |
| Messages.TallyBound | adaguc-checker.py:248-254 | `nerrors+nwarnings+ninfo` is at most the number of messages, with equality exactly when every severity is ERROR, WARNING or INFO |
| Messages.SeverityCountsAppend | adaguc-checker.py:353-378 | tallying a list extended by more messages is tallying the list and then the extra messages |
| Messages.Tally | adaguc-checker.py:120-126 | the tally loop adds to the starting counters one per ERROR, WARNING and INFO message and ignores any other severity |
| CfCheckParser.ClassifyFinding | adaguc-checker.py:279-290 | a line starting with `WARN: `, `ERROR: ` or `INFO: ` is a finding of that severity whose text is the rest of the line, and a finding has one of those three prefixes |
| CfCheckParser.ParseLine | adaguc-checker.py:270-306 | one turn of the loop: the next block, variable name, counters, header and messages are the one-line step of the declarative parse |
| CfCheckParser.ParseCheckerOutput | adaguc-checker.py:266-306 | the loop's counters equal the number of lines with each prefix, and the header and messages are those of the declarative parse |
| CfCheckParser.CfCheckSection | adaguc-checker.py:263-319 | the CF section is the parse of the printed text; when the checker library raises, it is the empty section with `nerrors` one higher and one ERROR message "Exception occurred during CF-checks." appended |
| CfCheckParserProperties.ClassifyByPrefix | adaguc-checker.py:279-290 | a line opens a finding of a severity exactly when it starts with that severity's prefix, and the message text is the line without the prefix |
| CfCheckParserProperties.ClassifyVariable | adaguc-checker.py:276-278 | a line declares a variable exactly when it starts with `Checking variable: `, and the name is the rest of the line |
| CfCheckParserProperties.MessagesWellFormed | adaguc-checker.py:296-305 | every message has category GENERAL, an empty documentation link and severity ERROR, WARNING or INFO |
| CfCheckParserProperties.MessagesCoverCount | adaguc-checker.py:279-305 | for each severity there are at least as many messages as lines carrying its prefix |
| CfCheckParserProperties.MessagesCoverCounters | adaguc-checker.py:279-305 | each counter is at most the number of messages of its severity, and the three tallies of the messages add up to their number |
| CfCheckParserProperties.MessagesOfPrefix | adaguc-checker.py:296-305 | messages are only ever appended: those of some lines begin those of any longer input |
| CfCheckParserProperties.FindingReported | adaguc-checker.py:279-305 | a line with a severity prefix is reported right after the messages of the lines before it, with that severity, with its text after the prefix, labelled `Variable <name>: ` with the latest declared variable when there is one |
| CfCheckParserProperties.FindingBlock | adaguc-checker.py:279-305 | a prefixed line followed by unprefixed lines leaves the parser inside a block of that severity with the same variable, and adds exactly one message for the prefixed line and then one per following line, in order, each with that severity and variable label |
| CfCheckParserProperties.LatestVariable | adaguc-checker.py:276-298 | the variable name is the one from the latest `Checking variable: ` line and is never reset by other lines |
| CfCheckParserProperties.NoVariableYet | adaguc-checker.py:268-298 | before any `Checking variable: ` line, messages carry no variable label |
| CfCheckParserProperties.ContinuationReported | adaguc-checker.py:296-305 | an unprefixed line inside a block of findings adds one more message of the same severity and leaves the counters and the block unchanged |
| CfCheckParserProperties.BlankEndsBlock | adaguc-checker.py:270-271 | a blank line ends any block: the unprefixed lines after it add no message and no header text |
| CfCheckParserProperties.HeaderCollected | adaguc-checker.py:272-292 | after a `=====================` marker, each following header line is appended to the header followed by a newline, and the marker itself is not |
| CfCheckParserProperties.HeaderClosed | adaguc-checker.py:270-293 | a blank line or any other marker ends the header, and later lines add nothing to it until the next header marker |
| WmsRequests.ServerRequests | adaguc-checker.py:62-145 | the server is the `--baseurl` option when it is given and not empty, else the default ADAGUC server; the GetCapabilities and GetMap requests are that server followed by a query that splits at `&` into exactly their parameters |
| WmsRequests.BaseLayerRequests | adaguc-checker.py:170-185 | the background and countries requests go to their own fixed servers, and each query splits at `&` into exactly its layer, the map parameters, the WMS 1.1.1 parameters and the swapped box |
| WmsRequests.BBoxAxisOrder | adaguc-checker.py:170-171 | the GetMap box is minx,miny,maxx,maxy, and the background box holds the same four values with each (x, y) pair swapped |
| WmsRequests.GetCapabilitiesParameters | adaguc-checker.py:101-102 | the GetCapabilities query is the source followed by SERVICE=WMS, VERSION=1.3.0 and REQUEST=GetCapabilities, and nothing else |
| WmsRequests.GetMapParameters | adaguc-checker.py:139-145 | the GetMap query holds exactly the source, the layer, the fixed map parameters, the WMS 1.3.0 parameters and the layer's box |
| WmsRequests.BaseLayerParameters | adaguc-checker.py:170-183 | the background and countries queries hold exactly the layer, the fixed map parameters, the WMS 1.1.1 parameters and the swapped box |
| WmsRequests.JoinNoChar | adaguc-checker.py:142-145 | a joined value holds a character only if one of its parts or the separator does |
| WmsRequests.SourceParamPath | adaguc-checker.py:334-337 | the parameter is `source=/<fname>` without a sub-directory and `source=/<dirname>/<fname>` with one |
| WmsRequests.CheckSelection | adaguc-checker.py:260 | the standard block runs exactly when "all" or "standard" is one of the comma-separated names, and the ADAGUC block exactly when "all" or "adaguc" is |
| WmsRequests.CheckSelectionExamples | adaguc-checker.py:397-404 | the default `all` runs both blocks, `standard` only the CF block, `adaguc` only the ADAGUC block |
| CheckerReport.GetCapabilitiesReport | adaguc-checker.py:113-126 | with no report file or no `messages` the run aborts; otherwise the section keeps the file's name, or "GetCapabilities", and its counters plus a tally of its messages |
| CheckerReport.GetCapCountsAtLeastPreset | adaguc-checker.py:113-126 | the GetCapabilities counters never fall below the file's own and exceed them by at most the number of messages |
| CheckerReport.CreateLayerReport | adaguc-checker.py:229-256 | a missing report file or a report without `messages` aborts the run; otherwise the layer report is renamed after the layer and its counters are a tally from zero |
| CheckerReport.RecountLayer | adaguc-checker.py:365-378 | the recount resets the layer counters to a tally of its messages, whatever they held before, and adds that tally to the totals |
| CheckerReport.LayerReport | adaguc-checker.py:347-378 | one turn of the layer loop yields the layer's section, or aborts, and adds the section's counters to the totals |
| CheckerReport.MissingBaseLayerWarns | adaguc-checker.py:353-363 | a missing background or countries image appends exactly one WARNING, so the layer has one more warning and the same errors and infos |
| CheckerReport.BaseLayersPresentNoWarning | adaguc-checker.py:353-363 | with both background images present the layer keeps its own messages and counts |
| CheckerReport.LayerCountsBounded | adaguc-checker.py:365-378 | a layer's counters add up to at most its number of messages |
| CheckerReport.LayerSectionsFailureSticks | adaguc-checker.py:346-378 | once a layer has aborted the run, later layers change nothing |
| CheckerReport.LayersReport | adaguc-checker.py:346-378 | the layer loop yields the layer sections, or the first layer's abort, and adds every layer's counters to the totals |
| CheckerReport.LayerSectionsInOrder | adaguc-checker.py:346-378 | either every layer is reported, in order, or the run aborts with the exception of the first layer that raises |
| CheckerReport.SumCountsTally | adaguc-checker.py:365-378 | layer counters that tally their own messages add up to a tally of all layer messages |
| CheckerReport.AdagucChecks | adaguc-checker.py:333-381 | the ADAGUC block yields the GetCapabilities and layer sections, or aborts, and adds their counters to the totals |
| CheckerReport.Check | adaguc-checker.py:258-384 | the report is the CF section when the standard checks are selected, then the GetCapabilities and layer sections when the ADAGUC checks are, with totals over all of them |
| CheckerReport.CheckedTotals | adaguc-checker.py:321-378 | the top-level counters are the CF counters plus the GetCapabilities counters plus one per ERROR, WARNING and INFO message over all layers |
| CheckerReport.CheckedSections | adaguc-checker.py:260-381 | the sections present follow the check selection, and the run aborts exactly when the ADAGUC checks are selected and the GetCapabilities report, the layer list or some layer fails |
| OutputStream.StreamToStr.constructor | adaguc-checker.py:422-423 | a new stream holds no data |
| OutputStream.StreamToStr.Write | adaguc-checker.py:424-425 | `write(s)` appends `s` to `data`, which stays the concatenation of all writes |
| OutputStream.StreamToStr.PrintLines | adaguc-checker.py:417-425 | printing lines one by one appends each line and a newline to `data` |
| OutputStream.CaptureLines | adaguc-checker.py:417-430 | what the parser reads back from a fresh stream is exactly the lines the checker printed |

## Left out

- HTTP: the requests to the ADAGUC server and the background services are not sent. What they return comes in as optional values: a report file, and image bytes whose content is never inspected (`LayerFetch`).
- XML: the capabilities document is not parsed by `getlayers` (adaguc-checker.py:77-98). The layer list, or its absence after a parse failure, is an input.
- Images: `combineimages` and base64 encoding use PIL and binary data, and are not modelled. So the report's `image` field and the GetCapabilities `xml` field are not modelled either.
- `checker_report.txt` and JSON: reading and decoding the file are not modelled. A decoded file is a `ReportFile`, and a file that is missing is `None`. A file that is present but not valid JSON is not modelled. Keys other than the report name, the counters and `messages` are not modelled.
- The environment variables, logging, standard error and the `sys.stdout` switch are not modelled.
- The CF checker library (`cfchecks.CFChecker`) is not part of this model. Neither are its `checker` method, the path handling in `AdagucChecker.checker` (adaguc-checker.py:67-75) and the no-op `_check_*` overrides. Its printed output, or the fact that it raised, is the input of the CF section.
- `parse_args` and `main` are command-line plumbing. The `--checks` and `--baseurl` values come in as parameters. The `--imagedir` option only decides whether images are written to disk, so it is not modelled.
- Aliasing: the script appends a layer's dictionary to the report before recounting it. The model builds the recounted section and then appends it, which gives the same report.
- Character data is modelled as Dafny strings. Python 2 byte strings and their encodings are not modelled.
- Messages in the layer and GetCapabilities reports are taken as they are. A message without a `severity` key, which would raise `KeyError`, is not modelled.
- A layer bounding box without one of `minx`, `miny`, `maxx` or `maxy` raises `KeyError` outside any `try` (adaguc-checker.py:142, 170). The model's `BBox` always has all four, so that exception is not modelled.
- A report file whose `messages` is `null` raises `TypeError` when it is iterated (adaguc-checker.py:120, 248). A decoded `messages` value is either a list or absent, so that exception is not modelled.
- `ReportFile.preset`: the counters read from `checker_report.txt` are kept and added to (adaguc-checker.py:118, 340). They are `Counts` over natural numbers, so negative counters in the file are not modelled.
