# TwistScan, modelled in Dafny

TwistScan looks for look-alike domains of an original domain. `dnstwist` generates
registered permutations of the domain. Each permutation is then submitted to
urlscan.io, and the scanner polls for the result. It writes one CSV row per
completed scan: the page facts, the links found, the pHash of the screenshot, and
the similarity of that screenshot to the original domain's own screenshot. There
are two front ends:

- `twistscan.py`: a command line script.
- `twistscan-streamlit.py`: a Streamlit dashboard.

Both run the same per-domain pipeline, in nearly the same words.

This project models that pipeline and the loop over the permutation domains. The
network, `dnstwist`, pandas and the image library are replaced by inputs. For
each domain, a `Scan.DomainInput` holds everything the outside world answers
about it:

- the submission status;
- the statuses of the successive result requests;
- the result record;
- the screenshot download status;
- the pHash of the downloaded image.

Files and modules:

- `similarity.dfy` (`Similarity`): Hamming distance and the score
  `(1 - d / side²) * 100` over `real`.
  - The hash is an 8 × 8 bit matrix, so the divisor `len(hash.hash) ** 2` is 64,
    which is the bit count, as the code computes it.
- `scan.dfy` (`Scan`): the values.
  - the result record, cells and the header `FIELDS`;
  - the 18 base cells with their `'N/A'` defaults;
  - the screenshot file name, messages, configuration and timing constants.
- `polling.dfy` (`Polling`): the poll loop as a method, `PollForResult`, proved
  against `PollVerdict`, `RequestsSent` and `Elapsed`.
  - It also holds the dashboard's progress bar: the value handed to it after
    each 404 and the range Streamlit accepts.
- `pipeline.dfy` (`Pipeline`): the specification of a run as functions of the
  state it starts from. It is shared by both programs through a `Frontend`
  parameter: `Cli`, or `Dashboard(bar)`.
  - `bar` is `AsWritten` for the dashboard's code, which hands the progress bar
    `elapsed_time`. `Percent` is the corrected value (see "## Findings").
  - `RunState`: the screenshot folder (regular files with their pHash, plus
    subdirectory names), the CSV header and rows, the messages, the result
    requests sent, the time slept, and whether an exception ended the run.
  - `Record`: the screenshot stage and the CSV write.
  - `Complete`: what follows a 200 result.
  - `DomainStep`: one iteration.
  - `Fold`: the loop over domains.
  - `Started`: clearing the folder and deleting the old report.
  - `RunSpec`: a whole run.
- `pipeline_props.dfy` (`PipelineProps`): lemmas about those functions.
- `storage.dfy` (`Storage`): the class `Workspace`. Its fields are the mutable
  world a run changes, and each file-system action is a method.
  - `State()` maps it to a `RunState`.
  - Folder clearing is a loop over the directory listing.
- `twistscan.dfy` (`TwistScan`) and `twistscan_streamlit.dfy`
  (`TwistScanDashboard`): the two scripts as imperative methods on a
  `Workspace`.
  - The in-place `data_row.append` steps, the `while` poll loops and the
    `for domain in domains` loop are kept. The dashboard's poll loop is its own
    method, `PollWithProgress`, with the progress check inside.
  - Each method is proved to leave the workspace in the state `DomainStep`,
    `Fold` or `RunSpec` computes.

A run that raises an exception is modelled by the `crashed` flag. Once it is set,
no later step changes anything. A scan can raise in four ways:

- as written, the dashboard's progress bar rejects the value 105 at the 22nd
  pending answer (twistscan-streamlit.py:253), so a scan still pending after 21
  result requests ends the run;
- the dashboard reads `result_data['data']['links']` when `links` is absent;
- `{domain}.png` is the name of a subdirectory, so the screenshot cannot be
  opened for writing;
- `{original}.png` is a subdirectory, so `Image.open` fails once the new file
  has been written.

Subdirectories matter because the folder clearing removes only regular files. On
the command line a missing API key raises before anything else happens.

## Model

| member | source | states |
|---|---|---|
| Similarity.Distance | twistscan.py:148 | imagehash's `a - b` counts differing bits: it is at most the bit count, and 0 only for equal hashes |
| Similarity.DistanceSelf | twistscan.py:148 | a hash is at distance 0 from itself |
| Similarity.DistanceSymmetric | twistscan.py:148 | the distance does not depend on argument order |
| Similarity.DistanceTriangle | twistscan.py:148 | the distance obeys the triangle inequality |
| Similarity.DistanceMaximal | twistscan.py:148 | the distance equals the bit count exactly when every bit differs |
| Similarity.Percent | twistscan.py:149 | `(1 - d / len(hash.hash) ** 2) * 100`, with 64 as the divisor, lies in [0, 100]; it is 100 exactly for d = 0 and 0 exactly for d = 64 |
| Similarity.PercentAntitone | twistscan.py:149 | a larger distance never gives a larger percentage |
| Similarity.Score | twistscan.py:148-149 | the similarity of two hashes lies in [0, 100] and is exactly 100 iff the hashes are equal |
| Similarity.ScoreSymmetric | twistscan-streamlit.py:191-192 | the score of a against b equals the score of b against a |
| Similarity.ScoreZeroIffComplement | twistscan-streamlit.py:192 | the score is 0 exactly for complementary hashes |
| Similarity.ScoreAntitone | twistscan-streamlit.py:199-216 | more differing bits never score higher (the explainer's ordering of bands) |
| Scan.BaseCells | twistscan.py:109-127 | the row starts with 18 scalar cells |
| Scan.BaseCellsInHeaderOrder | twistscan.py:77-127 | each base cell sits under its header: cell 0 is the permutation domain, cell 2 the report URL, and every other cell the page's value for the key its header names, or `'N/A'` when the page lacks that key |
| Scan.PngNameInjective | twistscan.py:134 | distinct domains never share a screenshot file name |
| Polling.Leading404 | twistscan.py:101-165 | counts the leading 404 answers within the limit; the answer after them is not 404 |
| Polling.PollForResult | twistscan.py:99-168 | the loop ends as `PollVerdict` says, after `RequestsSent` requests, with `elapsed_time` equal to `Elapsed`: at most 60 requests, and elapsed a multiple of 5 no larger than 300 |
| Polling.CompletedIff | twistscan.py:103-104 | the loop completes iff a 200 arrives within 60 requests after nothing but 404s |
| Polling.FailedIff | twistscan.py:166-168 | the loop fails with s iff s, neither 200 nor 404, arrives within 60 requests after nothing but 404s |
| Polling.TimedOutIff | twistscan.py:101 | the loop times out iff the first 60 answers are all 404 |
| Polling.TimedOutSpendsBudget | twistscan.py:101-165 | a timeout has sent 60 requests and waited 300 units |
| Pipeline.Record | twistscan.py:131-160 | the screenshot stage and CSV write: the row as it is without a screenshot URL or on a failed download (with the program's message), otherwise `{domain}.png` saved and the Phash and optional Similarity cells appended; a blocking subdirectory crashes |
| Pipeline.Complete | twistscan.py:103-161 | what follows a 200 result: on the dashboard one unit of sleep and a crash on a missing `links` key, then `Record` of the assembled row |
| Pipeline.DomainStep | twistscan.py:86-173 | one iteration of the loop over domains for either program (twistscan-streamlit.py:99-262): nothing after a crash; submission errors; the as-written progress raise; the poll loop's bookkeeping and its three endings |
| Pipeline.Fold | twistscan.py:86-173 | the loop over domains: one `DomainStep` per domain, in file order |
| Pipeline.RunSpec | twistscan.py:40-175 | a whole run: folder cleared, old report deleted, then the missing-file message, nothing for an empty CSV, or the header and `Fold` over the domains |
| PipelineProps.CliRowLength | twistscan.py:77-81 | a well-shaped command line row has 19 to 21 cells, with Links, Phash and Similarity under their own headers |
| PipelineProps.StepWithoutSubmission | twistscan.py:169-172 | a submission not answered 200 adds only its error message: no request, no row, no file |
| PipelineProps.StepProgressRaises | twistscan-streamlit.py:252-253 | the progress bar raises exactly on the dashboard as written with more than 21 pending answers; the step then ends the run after 22 requests and 10 + 105 units of sleep, with no row and no message |
| PipelineProps.CountSubmitted | twistscan.py:86-93 | a counting helper for the loop bounds: the number of domains whose submission was answered 200, at most the number of domains |
| PipelineProps.StepTimedOut | twistscan.py:101 | sixty 404s leave no row and no message, and cost 60 requests and 310 units of sleep; the dashboard as written raises at the 22nd instead, after 22 requests and 115 units |
| PipelineProps.StepResultFailed | twistscan.py:166-168 | a failed result adds no row and no file, after at least one and at most 60 requests; it adds one error message, unless the dashboard as written raised first, which is its only crash there |
| PipelineProps.StepCrashIff | twistscan.py:131-147 | a step ends the run exactly when the dashboard's progress bar as written raises, or, for a completed scan, on the dashboard's missing `links` key (its line 166) or when a subdirectory blocks `{domain}.png` or `{original}.png` for a downloaded screenshot |
| PipelineProps.StepBudget | twistscan.py:99-165 | a step sends at most 60 requests and sleeps at most 310 units on either program (the dashboard's extra unit only follows a completion, after at most 59 sleeps), and none when the submission was refused |
| PipelineProps.RecordBookkeeping | twistscan.py:131-160 | the screenshot stage sends no result request, does not sleep, and crashes only on a blocking subdirectory |
| PipelineProps.ScreenshotCellsShape | twistscan.py:142-151 | Phash comes first, then Similarity exactly when `{original}.png` is in the folder; the score is a percentage |
| PipelineProps.RecordWrites | twistscan.py:131-159 | without a crash the row is written exactly once; it gains the screenshot cells and the folder gains `{domain}.png` exactly when the download succeeded |
| PipelineProps.ReferencePresent | twistscan.py:134-145 | after saving, `{original}.png` exists iff this domain is the original or its file was already there |
| PipelineProps.AssembledShape | twistscan-streamlit.py:146-171 | the assembled row has the 18 scalar base cells, then the Links cell, which the dashboard leaves out for an empty list |
| PipelineProps.CompletedIsRecord | twistscan.py:103-161 | a completed scan that the progress bar let through and that has its `links` key hands the assembled row to the screenshot stage |
| PipelineProps.CliCompletedRow | twistscan.py:109-159 | a completed command line scan, when no subdirectory blocks a downloaded screenshot's `{domain}.png` or `{original}.png`, appends exactly one row: base cells, the Links cell (`[]` when absent), Phash iff the screenshot was downloaded, and Similarity iff in addition the original's screenshot is present or is the current domain's; the blocked case is a crash, as StepCrashIff states |
| PipelineProps.DashboardCompletedRow | twistscan-streamlit.py:146-250 | for a completed dashboard scan whose result has its `links` key and whose downloaded screenshot no subdirectory blocks, the step crashes exactly when the progress bar raised, writing nothing; otherwise it appends one row of length 18 + [links ≠ []] + [phash] + [similarity], with the cells in that order; the excluded cases are the crashes StepCrashIff states |
| PipelineProps.DashboardPhashUnderLinksHeader | twistscan-streamlit.py:91-185 | for a completed scan with an empty links list whose screenshot was downloaded and saved without a blocking subdirectory, the Phash cell lands in the column headed 'Links'; if the progress bar as written raised first, the run ends with no row |
| PipelineProps.FrontendsAgreeUpToLinks | twistscan-streamlit.py:146-250 | for a result with its `links` key: the corrected dashboard never raises on progress, and whenever the dashboard does not, both programs write the same row except the dropped empty Links cell, folder, requests and crash agree, and the dashboard sleeps one unit more after a completed scan; without the key the dashboard crashes, as StepCrashIff states |
| PipelineProps.OriginalScoresItself | twistscan.py:134-151 | when the domain is the original itself, its screenshot was downloaded and `{original}.png` is no subdirectory (and, on the dashboard, the result has its `links` key), the row's last cell is a similarity of exactly 100; when the dashboard's progress bar as written raised, no row is written |
| PipelineProps.StepRows | twistscan.py:86-173 | a step leaves the rows alone, or appends one well-shaped row, and that only for an accepted submission |
| PipelineProps.RecordRows | twistscan.py:131-159 | the screenshot stage appends the assembled row with a well-shaped screenshot tail, or, on a crash, nothing |
| PipelineProps.AssembledWithTail | twistscan.py:109-151 | the assembled row followed by Phash and an optional Similarity cell is a well-shaped row |
| PipelineProps.StepSimilarityNeedsReference | twistscan.py:144-151 | a new row ends in Similarity only if its screenshot was saved and the original's file then exists |
| PipelineProps.StepKeepsFolderConsistent | twistscan.py:134-136 | a step never creates a file under a subdirectory's name |
| PipelineProps.FoldRows | twistscan.py:86-173 | the loop keeps the earlier rows, adds at most one per accepted submission, and every added row is well-shaped |
| PipelineProps.FoldBudget | twistscan.py:86-168 | a loop with k accepted submissions sends at most 60k result requests and sleeps at most 310k units on either program |
| PipelineProps.FoldKeepsFolderConsistent | twistscan.py:86-173 | no file ever shares a subdirectory's name |
| PipelineProps.StepShots | twistscan.py:134-136 | a step saves at most one file: this domain's screenshot, and only when it was downloaded |
| PipelineProps.FoldScreenshotsFromRun | twistscan.py:134-136 | from an emptied folder, every file is the screenshot that some domain of the run saved under its own name |
| PipelineProps.SimilarityNeedsOriginalSaved | twistscan.py:144-145 | a Similarity cell in domain i's row means the original domain was processed at some j ≤ i and its screenshot was saved |
| PipelineProps.FoldStaysCrashed | twistscan.py:86-173 | once an exception has ended the run, the remaining domains change nothing |
| PipelineProps.NoPermutationsNoScan | twistscan-streamlit.py:78-82 | a missing or empty permutation CSV (and the `else` at its lines 263-264) processes no domain, writes no report, leaves the folder empty, and logs an error only when the file is missing |
| PipelineProps.RunScreenshotsFromRun | twistscan.py:40-46 | after a run, every screenshot in the folder was saved by one of that run's domains |
| PipelineProps.RunRows | twistscan.py:82-86 | a run with domains writes the header, then only well-shaped rows, at most one per accepted domain |
| PipelineProps.FoldHeader | twistscan.py:82-84 | the loop over domains never rewrites the header |
| PipelineProps.StepHeader | twistscan.py:157-159 | a step only appends rows and never touches the CSV header |
| Storage.Workspace.constructor | twistscan.py:39-46 | a fresh process starts from the folder as found, with no report, messages, requests or sleep |
| Storage.Workspace.ClearScreenshots | twistscan.py:40-46 | removes every regular file listed in the folder and keeps subdirectories; nothing else changes |
| Storage.Workspace.DeleteReport | twistscan.py:48-51 | the URLScan CSV is gone; nothing else changes |
| Storage.Workspace.WriteHeader | twistscan.py:82-84 | the URLScan CSV holds just the header |
| Storage.Workspace.AppendRow | twistscan.py:157-159 | the row is appended after the existing rows |
| Storage.Workspace.SaveScreenshot | twistscan.py:134-136 | the file is created or overwritten, unless a subdirectory has that name, which raises |
| Storage.Workspace.OpenImage | twistscan.py:139-147 | an existing file yields its pHash and changes nothing; a subdirectory raises |
| Storage.Workspace.Notify | twistscan.py:153-155 | the message is appended to those shown |
| Storage.Workspace.Sleep | twistscan.py:100 | the clock advances by the sleep |
| Storage.Workspace.Requested | twistscan.py:102 | the request count grows by the requests sent |
| Storage.Workspace.Crash | twistscan.py:29-30 | an uncaught exception marks the run as ended |
| TwistScan.ProcessDomain | twistscan.py:86-173 | one loop iteration leaves the workspace in the state `DomainStep(Cli, …)` gives |
| TwistScan.RecordResult | twistscan.py:131-160 | the screenshot stage and CSV write leave the state `Record(Cli, …)` gives |
| TwistScan.Run | twistscan.py:28-175 | without an API key the run raises and changes nothing else; otherwise it ends in the state `RunSpec(Cli, …)` gives |
| TwistScanDashboard.RunEnabled | twistscan-streamlit.py:35-39 | the Run Scan button is enabled iff none of the domain, API key, both CSV paths and the folder is empty |
| TwistScanDashboard.PollWithProgress | twistscan-streamlit.py:117-258 | the loop with its progress updates either raises, exactly when the bar rejects a 404, after one request past the accepted 404s and their sleeps, or ends as `PollVerdict` says after `RequestsSent` requests and `Elapsed` units |
| TwistScanDashboard.ProcessDomain | twistscan-streamlit.py:99-262 | one loop iteration leaves the workspace in the state `DomainStep(Dashboard(bar), …)` gives, the raise at the 22nd pending answer included when `bar` is `AsWritten` |
| TwistScanDashboard.CompleteScan | twistscan-streamlit.py:119-251 | after a 200 result the state is `Complete(Dashboard(bar), …)`: one unit of sleep, then a crash on a missing `links` key, or the assembled row recorded |
| TwistScanDashboard.RecordResult | twistscan-streamlit.py:173-250 | the screenshot stage and CSV write leave the state `Record(Dashboard(bar), …)` gives |
| TwistScanDashboard.Run | twistscan-streamlit.py:35-264 | an incomplete configuration only shows the warning; an enabled but unclicked button changes nothing; a click ends in the state `RunSpec(Dashboard(bar), …)` gives, so as written the run stops at the first scan still pending after 21 requests |
| Polling.AsWrittenProgressFailsIff | twistscan-streamlit.py:252-255 | as written, the waiting progress bar is given a value above 100 exactly when the scan is still pending after 21 requests |
| Polling.ProgressPercent | twistscan-streamlit.py:253 | the corrected progress value is a valid percentage: 0 below 3 units, 100 exactly at the end of the budget |
| Polling.CorrectedProgressValid | twistscan-streamlit.py:252-255 | with the corrected value, every update the poll loop makes is accepted, so the bar never rejects |
| Polling.ProgressAcceptedIff | twistscan-streamlit.py:252-253 | the update after the j-th 404 is accepted exactly while j is below the bar's accepted count: 21 as written, all 60 once corrected |

## Left out

- HTTP requests and JSON decoding. Status codes, the result record and the
  screenshot's pHash are inputs.
  - The scan id from the submission response and the response texts in error
    messages are not modelled.
  - The service is assumed to answer every result request; `Responses` has at
    least 60 entries.
- `dnstwist.run` and `pandas.read_csv`. The permutation CSV arrives as
  `Option<seq<DomainInput>>`: None when the file does not exist, and the rows in
  file order otherwise.
- Reading and deleting the `dnstwist` output file are not modelled, since that
  file belongs to `dnstwist`. Only the URLScan CSV is tracked.
- The pHash computation (PIL and imagehash's DCT) is not modelled; the downloaded
  image's hash is an input.
  - Image contents that `Image.open` cannot decode are not modelled.
- Python float arithmetic and the `:.2f` formatting of the similarity. The score
  is an exact `real`.
- CSV encoding and quoting. A list-valued or hash-valued cell is kept as a value,
  not as its `str()` text.
- Informational output is not recorded: progress prints, the "Domains Found"
  listing, `st.write`/`st.markdown`/`st.image`/`st.dataframe`, the link
  expander, the page summary, colorama, and the success line with the
  similarity. `Notice` covers only error and warning messages.
- Streamlit reruns the script on every interaction; one `Run` call is one script
  run, and `clicked` is the button's value.
- The explainer table's band boundaries (twistscan-streamlit.py:198-235) are not
  stated. They are display text, and the '4–10' row disagrees with the formula at
  10 bits (84.375 %). Only the monotone ordering, `Similarity.ScoreAntitone`, and
  the 'Identical' row, `Similarity.Score`, are proved.
- Missing `task`, `page` or `data` keys in a result record are not modelled; the
  record type always has them. Only the dashboard's missing `data.links` is
  modelled, because the two programs differ there.
  - Likewise a `task` object without `screenshotURL` or `reportURL`: the
    KeyError at twistscan.py:105-106 and twistscan-streamlit.py:124-125 is not
    modelled. Both fields are always present as values.
- argparse, dotenv and environment lookup are not modelled. An unset API key
  reads as the empty string; both are falsy in the source.
  - Command line paths become the `Workspace` the methods act on, so
    `Config`'s path fields matter only for the dashboard's gate.
- `os.makedirs` for a missing folder is not modelled separately; a missing folder
  is the same as an empty one. A folder path that names a regular file is not
  modelled.
- Wall-clock time is not modelled; only the sum of the `time.sleep` arguments is
  kept. The time requests themselves take is not counted.

## Findings

| source | as written | input that shows it | evidently intended | confidence | as-written member | corrected member |
|---|---|---|---|---|---|---|
| twistscan-streamlit.py:253 | `placeholder_scan.progress(elapsed_time, …)` passes the elapsed seconds (0 to 295) where a percentage from 0 to 100 is expected | a scan whose first 22 result requests are answered 404, e.g. sixty 404s: the 22nd update passes 105 and Streamlit raises | `elapsed_time * 100 // MAX_WAIT_TIME`, the share of the waiting budget, so the dashboard keeps waiting up to 300 units as the command line does | not executed; relies on Streamlit rejecting integer progress values outside 0..100 | Polling.AsWrittenProgressFailsIff | Polling.CorrectedProgressValid |

The dashboard is modelled as written: `DomainStep(Dashboard(AsWritten), …)` and
`TwistScanDashboard.Run(ws, AsWritten, …)` end the run at the 22nd pending
answer (`PipelineProps.StepProgressRaises`). The corrected program is
`Dashboard(Percent)`. The same methods run it, and there the progress bar never
raises, so its poll loop waits up to 300 units as the command line's does.
