// What one run of the scanner does, as functions of the state it starts
// from: the per-domain step (submit, poll, assemble the row, fetch and
// compare the screenshot) and the loop over the permutation domains. Both
// programs follow it; where they differ the step takes the Frontend.

module Pipeline {
  import opened Similarity
  import opened Scan
  import opened Polling

  /**
   * Everything a run changes: the screenshot folder (regular files by name,
   * and the names of subdirectories, which clearing keeps), whether the
   * URLScan CSV exists with its header, its data rows, the messages shown,
   * the result requests sent, the time slept, and whether an exception has
   * ended the run.
   */
  datatype RunState = RunState(
    shots: map<string, PHash>,
    subdirs: set<string>,
    header: bool,
    rows: seq<seq<Cell>>,
    log: seq<Notice>,
    requests: nat,
    clock: nat,
    crashed: bool)

  /** The Links cell: always present in the command line row, only for a non-empty list on the dashboard. */
  function LinksCells(fe: Frontend, links: seq<Link>): seq<Cell> {
    if fe == Cli || links != [] then [LinkList(links)] else []
  }

  /** `data.links` as each program reads it (the dashboard's missing-key case crashes before this). */
  function LinksOf(r: ScanResult): seq<Link> {
    if r.links.Some? then r.links.value else []
  }

  /** The row as built from the result record, before the screenshot stage. */
  function Assembled(fe: Frontend, d: DomainInput): seq<Cell> {
    BaseCells(d.domain, d.result) + LinksCells(fe, LinksOf(d.result))
  }

  /** The Phash cell, and the Similarity cell when `{original}.png` is among the saved files. */
  function ScreenshotCells(shot: PHash, folder: map<string, PHash>, original: string): seq<Cell> {
    var ref := PngName(original);
    [PhashCell(shot)]
    + if ref in folder then [SimilarityCell(Score(shot, folder[ref]))] else []
  }

  /** The screenshot of `d` is written to the folder: its scan completed, the URL is set and the download answered 200. */
  predicate Saves(d: DomainInput) {
    d.submitStatus == 200 && PollVerdict(d.polls) == Completed
    && Truthy(d.result.screenshotURL) && d.screenshotStatus == 200
  }

  /**
   * The screenshot stage and the CSV write for an assembled row: without a
   * screenshot URL, or when the download is not answered 200, the row is
   * written as it is; otherwise `{domain}.png` is saved, the Phash cell is
   * appended, and the Similarity cell too when `{original}.png` exists.
   */
  function Record(fe: Frontend, s: RunState, d: DomainInput, original: string, row: seq<Cell>): RunState {
    if !Truthy(d.result.screenshotURL) then
      s.(rows := s.rows + [row],
         log := if fe == Cli then s.log + [ScreenshotNotFound(d.domain)] else s.log)
    else if d.screenshotStatus != 200 then
      var n := if fe.Dashboard? && d.screenshotStatus == 404 then ScreenshotNotFound(d.domain)
               else ScreenshotFailed(d.domain);
      s.(rows := s.rows + [row], log := s.log + [n])
    else if PngName(d.domain) in s.subdirs then
      s.(crashed := true)
    else
      var folder := s.shots[PngName(d.domain) := d.screenshot];
      if PngName(original) in s.subdirs then
        s.(shots := folder, crashed := true)
      else
        s.(shots := folder, rows := s.rows + [row + ScreenshotCells(d.screenshot, folder, original)])
  }

  /** What happens once the poll loop has received the result (twistscan.py:104-161). */
  function Complete(fe: Frontend, s: RunState, d: DomainInput, original: string): RunState {
    var s := if fe.Dashboard? then s.(clock := s.clock + 1) else s;
    if fe.Dashboard? && d.result.links.None? then
      s.(crashed := true)
    else
      Record(fe, s, d, original, Assembled(fe, d))
  }

  /** The poll loop's bookkeeping: its result requests, the initial wait and the sleeps after each 404. */
  function Polled(s: RunState, d: DomainInput): RunState {
    s.(requests := s.requests + RequestsSent(d.polls), clock := s.clock + INITIAL_WAIT + Elapsed(d.polls))
  }

  /** The dashboard's progress bar raises inside the poll loop (twistscan-streamlit.py:252-253). */
  predicate ProgressRaises(fe: Frontend, polls: Responses) {
    fe.Dashboard? && ProgressRejects(fe.bar, polls)
  }

  /**
   * The poll loop's bookkeeping when the progress bar raises: the initial
   * wait, the 404s it accepted with their sleeps, the request answered by the
   * rejected 404, and then the exception.
   */
  function Raised(s: RunState, bar: ProgressBar): RunState {
    var n := Accepted404s(bar);
    s.(requests := s.requests + n + 1, clock := s.clock + INITIAL_WAIT + POLL_INTERVAL * n, crashed := true)
  }

  /** One iteration of `for domain in domains` (twistscan.py:87-173). */
  function DomainStep(fe: Frontend, s: RunState, d: DomainInput, original: string): RunState {
    if s.crashed then s
    else if d.submitStatus == 200 && ProgressRaises(fe, d.polls) then
      Raised(s, fe.bar)
    else if d.submitStatus == 200 then
      var s := Polled(s, d);
      match PollVerdict(d.polls)
      case TimedOut => s
      case Failed(_) => s.(log := s.log + [ResultFailed(d.domain)])
      case Completed => Complete(fe, s, d, original)
    else if d.submitStatus == 400 then
      s.(log := s.log + [BadRequest(d.domain)])
    else
      s.(log := s.log + [SubmitFailed(d.domain)])
  }

  /** The loop over `domains`, one DomainStep per domain in order. */
  function Fold(fe: Frontend, s: RunState, ds: seq<DomainInput>, original: string): RunState
    decreases |ds|
  {
    if ds == [] then s
    else DomainStep(fe, Fold(fe, s, ds[..|ds| - 1], original), ds[|ds| - 1], original)
  }

  /** The screenshot folder after clearing: no regular file is left, subdirectories stay. */
  function Cleared(s: RunState): RunState {
    s.(shots := map[])
  }

  /**
   * The start of a run once the configuration has been accepted: the folder
   * is cleared and the old report deleted. The dashboard also sleeps three
   * times one unit around the permutation generator.
   */
  function Started(fe: Frontend, s: RunState): RunState {
    var s := Cleared(s).(header := false, rows := []);
    if fe.Dashboard? then s.(clock := s.clock + 3) else s
  }

  /**
   * A whole run: start, then, when the permutation CSV exists and has rows,
   * write the header and process every domain.
   */
  function RunSpec(fe: Frontend, s: RunState, original: string, permutations: Option<seq<DomainInput>>): RunState {
    var s := Started(fe, s);
    match permutations
    case None => s.(log := s.log + [PermutationsMissing])
    case Some(ds) => if ds == [] then s else Fold(fe, s.(header := true), ds, original)
  }
}
