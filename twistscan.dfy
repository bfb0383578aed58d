// The command line scanner: clear the screenshot folder, delete the old
// reports, and, when the permutation CSV has rows, write the URLScan CSV
// header and scan every permutation domain in order.

module TwistScan {
  import opened Similarity
  import opened Scan
  import opened Polling
  import opened Pipeline
  import opened PipelineProps
  import opened Storage

  /** One iteration of the loop over domains (twistscan.py:86-173). */
  method ProcessDomain(ws: Workspace, original: string, d: DomainInput)
    requires !ws.crashed
    modifies ws
    ensures ws.State() == DomainStep(Cli, old(ws.State()), d, original)
  {
    if d.submitStatus == 200 {
      ws.Sleep(INITIAL_WAIT);
      var verdict, sent, elapsed := PollForResult(d.polls);
      ws.Requested(sent);
      ws.Sleep(elapsed);
      ghost var polled := ws.State();
      assert polled == Polled(old(ws.State()), d);
      match verdict {
        case Completed =>
          var row := BaseCells(d.domain, d.result) + [LinkList(LinksOf(d.result))];
          assert row == Assembled(Cli, d);
          RecordResult(ws, original, d, row);
        case Failed(_) =>
          ws.Notify(ResultFailed(d.domain));
        case TimedOut =>
      }
    } else if d.submitStatus == 400 {
      ws.Notify(BadRequest(d.domain));
    } else {
      ws.Notify(SubmitFailed(d.domain));
    }
  }

  /** The screenshot stage and the CSV write for an assembled row (twistscan.py:131-160). */
  method RecordResult(ws: Workspace, original: string, d: DomainInput, assembled: seq<Cell>)
    modifies ws
    ensures ws.State() == Record(Cli, old(ws.State()), d, original, assembled)
  {
    var row := assembled;
    if Truthy(d.result.screenshotURL) {
      if d.screenshotStatus == 200 {
        var saved := ws.SaveScreenshot(PngName(d.domain), d.screenshot);
        if !saved {
          return;
        }
        ghost var folder := ws.shots;
        row := row + [PhashCell(d.screenshot)];
        var reference := PngName(original);
        if ws.Exists(reference) {
          var refHash := ws.OpenImage(reference);
          if refHash.None? {
            return;
          }
          row := row + [SimilarityCell(Score(d.screenshot, refHash.value))];
        }
        assert row == assembled + ScreenshotCells(d.screenshot, folder, original);
      } else {
        ws.Notify(ScreenshotFailed(d.domain));
      }
    } else {
      ws.Notify(ScreenshotNotFound(d.domain));
    }
    ws.AppendRow(row);
  }

  /**
   * The whole script (twistscan.py:28-175) once the permutation CSV has been
   * read: None when it does not exist, otherwise its domains. Without an API
   * key the script raises before touching anything.
   */
  method Run(ws: Workspace, config: Config, permutations: Option<seq<DomainInput>>)
    requires !ws.crashed
    modifies ws
    ensures config.apiKey == "" ==> ws.State() == old(ws.State()).(crashed := true)
    ensures config.apiKey != "" ==> ws.State() == RunSpec(Cli, old(ws.State()), config.domain, permutations)
  {
    if config.apiKey == "" {
      ws.Crash();
      return;
    }
    ws.ClearScreenshots();
    ws.DeleteReport();
    match permutations {
      case None =>
        ws.Notify(PermutationsMissing);
      case Some(ds) =>
        if ds != [] {
          ws.WriteHeader();
          ghost var s0 := ws.State();
          var i := 0;
          while i < |ds| && !ws.crashed
            invariant 0 <= i <= |ds|
            invariant ws.State() == Fold(Cli, s0, ds[..i], config.domain)
          {
            ProcessDomain(ws, config.domain, ds[i]);
            assert ds[..i + 1][..i] == ds[..i];
            i := i + 1;
          }
          if i < |ds| {
            FoldStaysCrashed(Cli, s0, ds, config.domain, i);
          } else {
            assert ds[..i] == ds;
          }
        }
    }
  }
}
