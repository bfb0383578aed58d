// The Streamlit dashboard: the same pipeline behind a Run Scan button that
// is disabled while the configuration is incomplete, with its own row
// variant (no Links cell for an empty list) and its own messages.

module TwistScanDashboard {
  import opened Similarity
  import opened Scan
  import opened Polling
  import opened Pipeline
  import opened PipelineProps
  import opened Storage

  /** The five configuration values the sidebar checks. */
  function ConfigFields(c: Config): seq<string> {
    [c.domain, c.apiKey, c.dnstwistOutput, c.urlscanOutput, c.screenshotFolder]
  }

  /** Whether the Run Scan button is enabled (twistscan-streamlit.py:35-39). */
  function RunEnabled(c: Config): (enabled: bool)
    ensures enabled <==> "" !in ConfigFields(c)
  {
    !(c.domain == "" || c.apiKey == "" || c.dnstwistOutput == "" || c.urlscanOutput == "" || c.screenshotFolder == "")
  }

  /**
   * The dashboard's poll loop (twistscan-streamlit.py:113-258): one result
   * request per pass, and after each 404 a progress update before the
   * sleep. An update the progress bar rejects raises and ends the run.
   */
  method PollWithProgress(ws: Workspace, bar: ProgressBar, polls: Responses) returns (verdict: Verdict)
    requires !ws.crashed
    modifies ws
    ensures ProgressRejects(bar, polls) ==>
              ws.State() == old(ws.State()).(requests := old(ws.requests) + Accepted404s(bar) + 1,
                                             clock := old(ws.clock) + POLL_INTERVAL * Accepted404s(bar),
                                             crashed := true)
    ensures !ProgressRejects(bar, polls) ==>
              && verdict == PollVerdict(polls)
              && ws.State() == old(ws.State()).(requests := old(ws.requests) + RequestsSent(polls),
                                                clock := old(ws.clock) + Elapsed(polls))
  {
    var elapsed, n := 0, 0;
    verdict := TimedOut;
    while elapsed < MAX_WAIT_TIME
      invariant n <= MAX_POLLS && n <= Accepted404s(bar) && elapsed == POLL_INTERVAL * n
      invariant forall j | 0 <= j < n :: polls[j] == 404
      invariant verdict == TimedOut
      invariant ws.State() == old(ws.State()).(requests := old(ws.requests) + n, clock := old(ws.clock) + elapsed)
      decreases MAX_WAIT_TIME - elapsed
    {
      var status := polls[n];
      ws.Requested(1);
      if status == 200 {
        verdict := Completed;
        break;
      } else if status == 404 {
        ProgressAcceptedIff(bar, n);
        if !ProgressValid(ProgressValue(bar, elapsed)) {
          ws.Crash();
          return;
        }
        ws.Sleep(POLL_INTERVAL);
        elapsed, n := elapsed + POLL_INTERVAL, n + 1;
      } else {
        verdict := Failed(status);
        break;
      }
    }
  }

  /**
   * One iteration of the loop over domains (twistscan-streamlit.py:99-262),
   * with the progress value as written (`AsWritten`) or corrected (`Percent`).
   */
  method ProcessDomain(ws: Workspace, bar: ProgressBar, original: string, d: DomainInput)
    requires !ws.crashed
    modifies ws
    ensures ws.State() == DomainStep(Dashboard(bar), old(ws.State()), d, original)
  {
    if d.submitStatus == 200 {
      ws.Sleep(INITIAL_WAIT);
      var verdict := PollWithProgress(ws, bar, d.polls);
      if ws.crashed {
        return;
      }
      ghost var polled := ws.State();
      assert polled == Polled(old(ws.State()), d);
      match verdict {
        case Completed =>
          CompleteScan(ws, bar, original, d);
        case Failed(_) =>
          ws.Notify(ResultFailed(d.domain));
        case TimedOut =>
      }
    } else if d.submitStatus == 400 {
      ws.Notify(BadRequest(d.domain));
    } else {
      ws.Notify(SubmitFailed(d.domain));
    }
  }

  /** What follows the 200 answer to a result request (twistscan-streamlit.py:119-251). */
  method CompleteScan(ws: Workspace, bar: ProgressBar, original: string, d: DomainInput)
    modifies ws
    ensures ws.State() == Complete(Dashboard(bar), old(ws.State()), d, original)
  {
    ws.Sleep(1);
    if d.result.links.None? {
      ws.Crash();
      return;
    }
    ghost var mid := ws.State();
    assert Complete(Dashboard(bar), old(ws.State()), d, original)
        == Record(Dashboard(bar), mid, d, original, Assembled(Dashboard(bar), d));
    var row := BaseCells(d.domain, d.result);
    if d.result.links.value != [] {
      row := row + [LinkList(d.result.links.value)];
    }
    assert row == Assembled(Dashboard(bar), d);
    RecordResult(ws, bar, original, d, row);
  }

  /** The screenshot stage and the CSV write for an assembled row (twistscan-streamlit.py:173-250). */
  method RecordResult(ws: Workspace, bar: ProgressBar, original: string, d: DomainInput, assembled: seq<Cell>)
    modifies ws
    ensures ws.State() == Record(Dashboard(bar), old(ws.State()), d, original, assembled)
  {
    var row := assembled;
    if Truthy(d.result.screenshotURL) {
      if d.screenshotStatus == 200 {
        var saved := ws.SaveScreenshot(PngName(d.domain), d.screenshot);
        if !saved {
          return;
        }
        ghost var folder := ws.shots;
        row := row + [PhashCell(d.screenshot)];
        var reference := PngName(original);
        if ws.Exists(reference) {
          var refHash := ws.OpenImage(reference);
          if refHash.None? {
            return;
          }
          row := row + [SimilarityCell(Score(d.screenshot, refHash.value))];
        }
        assert row == assembled + ScreenshotCells(d.screenshot, folder, original);
      } else if d.screenshotStatus == 404 {
        ws.Notify(ScreenshotNotFound(d.domain));
      } else {
        ws.Notify(ScreenshotFailed(d.domain));
      }
    }
    ws.AppendRow(row);
  }

  /**
   * One script run of the dashboard (twistscan-streamlit.py:35-264):
   * `clicked` is whether the user pressed an enabled Run Scan button, and
   * `permutations` the permutation CSV as read (None when it does not exist).
   * The program as written is `Run(ws, AsWritten, …)`.
   */
  method Run(ws: Workspace, bar: ProgressBar, config: Config, clicked: bool, permutations: Option<seq<DomainInput>>)
    requires !ws.crashed
    modifies ws
    ensures !RunEnabled(config) ==> ws.State() == old(ws.State()).(log := old(ws.log) + [ConfigurationIncomplete])
    ensures RunEnabled(config) && !clicked ==> ws.State() == old(ws.State())
    ensures RunEnabled(config) && clicked ==> ws.State() == RunSpec(Dashboard(bar), old(ws.State()), config.domain, permutations)
  {
    var runScan := false;
    if !RunEnabled(config) {
      ws.Notify(ConfigurationIncomplete);
    } else {
      runScan := clicked;
    }
    if !runScan {
      return;
    }
    ws.ClearScreenshots();
    ws.DeleteReport();
    ws.Sleep(1);
    ws.Sleep(1);
    ws.Sleep(1);
    match permutations {
      case None =>
        ws.Notify(PermutationsMissing);
      case Some(ds) =>
        if ds != [] {
          ws.WriteHeader();
          ghost var s0 := ws.State();
          var i := 0;
          while i < |ds| && !ws.crashed
            invariant 0 <= i <= |ds|
            invariant ws.State() == Fold(Dashboard(bar), s0, ds[..i], config.domain)
          {
            ProcessDomain(ws, bar, config.domain, ds[i]);
            assert ds[..i + 1][..i] == ds[..i];
            i := i + 1;
          }
          if i < |ds| {
            FoldStaysCrashed(Dashboard(bar), s0, ds, config.domain, i);
          } else {
            assert ds[..i] == ds;
          }
        }
    }
  }
}
