// Properties of the scan pipeline: the submission gate, the three ways the
// poll loop ends, the shape of every row, the screenshot and similarity
// cells, the request and time budget, and what the screenshot folder can
// hold across iterations.

module PipelineProps {
  import opened Similarity
  import opened Scan
  import opened Polling
  import opened Pipeline

  function Bit(b: bool): nat { if b then 1 else 0 }

  /** The Phash cell, optionally followed by a Similarity cell holding a percentage. */
  predicate ScreenshotTail(t: seq<Cell>) {
    t == [] || (t[0].PhashCell? && (|t| == 1 || (|t| == 2 && t[1].SimilarityCell? && 0.0 <= t[1].score <= 100.0)))
  }

  /**
   * A well-formed report row: 18 scalar cells, then the Links cell (on the
   * dashboard only when the list is non-empty), then the optional Phash and
   * Similarity cells, Similarity never without Phash.
   */
  predicate WellShaped(fe: Frontend, row: seq<Cell>) {
    && |row| >= 18
    && (forall i | 0 <= i < 18 :: row[i].Scalar?)
    && var rest := row[18..];
       if fe == Cli then |rest| >= 1 && rest[0].LinkList? && ScreenshotTail(rest[1..])
       else if |rest| >= 1 && rest[0].LinkList? then rest[0].links != [] && ScreenshotTail(rest[1..])
       else ScreenshotTail(rest)
  }

  /** A command line row has 19, 20 or 21 cells, and every cell after the Links cell is in header order. */
  lemma CliRowLength(row: seq<Cell>)
    requires WellShaped(Cli, row)
    ensures 19 <= |row| <= 21
    ensures FIELDS[18] == "Links" && row[18].LinkList?
    ensures |row| >= 20 ==> FIELDS[19] == "Phash" && row[19].PhashCell?
    ensures |row| == 21 ==> FIELDS[20] == "Similarity" && row[20].SimilarityCell?
  {
    assert row[18..][0] == row[18];
    assert |row| >= 20 ==> row[18..][1..][0] == row[19];
    assert |row| == 21 ==> row[18..][1..][1] == row[20];
  }

  // ---------------------------------------------------------------- submission

  /** Only a submission answered 200 is polled; 400 and every other status show an error and change nothing else. */
  lemma StepWithoutSubmission(fe: Frontend, s: RunState, d: DomainInput, original: string)
    requires !s.crashed && d.submitStatus != 200
    ensures DomainStep(fe, s, d, original)
         == s.(log := s.log + [if d.submitStatus == 400 then BadRequest(d.domain) else SubmitFailed(d.domain)])
  {
  }

  /** The number of domains whose submission was answered 200. */
  function CountSubmitted(ds: seq<DomainInput>): (n: nat)
    ensures n <= |ds|
    decreases |ds|
  {
    if ds == [] then 0
    else CountSubmitted(ds[..|ds| - 1]) + Bit(ds[|ds| - 1].submitStatus == 200)
  }

  // ---------------------------------------------------------------- poll loop exits

  /**
   * The dashboard as written raises at the 22nd pending answer, after 22
   * result requests and 10 + 105 units of sleep, and only there; neither the
   * command line nor the corrected dashboard ever does.
   */
  lemma StepProgressRaises(fe: Frontend, s: RunState, d: DomainInput, original: string)
    requires !s.crashed && d.submitStatus == 200
    ensures ProgressRaises(fe, d.polls) <==> fe == Dashboard(AsWritten) && Pending(d.polls) > 21
    ensures ProgressRaises(fe, d.polls) ==>
              DomainStep(fe, s, d, original)
              == s.(requests := s.requests + 22, clock := s.clock + INITIAL_WAIT + 105, crashed := true)
  {
    if fe.Dashboard? {
      AsWrittenProgressFailsIff(d.polls);
      CorrectedProgressValid(d.polls);
    }
  }

  /**
   * Sixty 404s: no row, no message, all 60 requests sent and 310 units slept;
   * the dashboard as written raises at the 22nd instead.
   */
  lemma StepTimedOut(fe: Frontend, s: RunState, d: DomainInput, original: string)
    requires !s.crashed && d.submitStatus == 200 && PollVerdict(d.polls) == TimedOut
    ensures fe != Dashboard(AsWritten) ==>
              DomainStep(fe, s, d, original)
              == s.(requests := s.requests + MAX_POLLS, clock := s.clock + INITIAL_WAIT + MAX_WAIT_TIME)
    ensures fe == Dashboard(AsWritten) ==>
              DomainStep(fe, s, d, original)
              == s.(requests := s.requests + 22, clock := s.clock + INITIAL_WAIT + 105, crashed := true)
  {
    StepProgressRaises(fe, s, d, original);
  }

  /**
   * A status other than 200 or 404: no row, at most 60 requests, and one
   * error message, unless the dashboard as written has already raised.
   */
  lemma StepResultFailed(fe: Frontend, s: RunState, d: DomainInput, original: string)
    requires !s.crashed && d.submitStatus == 200 && PollVerdict(d.polls).Failed?
    ensures var t := DomainStep(fe, s, d, original);
            && t.rows == s.rows && t.shots == s.shots
            && (t.crashed <==> ProgressRaises(fe, d.polls))
            && t.log == s.log + (if t.crashed then [] else [ResultFailed(d.domain)])
            && s.requests < t.requests <= s.requests + MAX_POLLS
  {
  }

  /**
   * The only ways a scan ends the run: the dashboard's progress bar as
   * written, or, once the scan completed, the dashboard's missing `links`
   * key or a subdirectory in the way of a screenshot file.
   */
  lemma StepCrashIff(fe: Frontend, s: RunState, d: DomainInput, original: string)
    requires !s.crashed
    ensures DomainStep(fe, s, d, original).crashed <==>
            d.submitStatus == 200 &&
            (ProgressRaises(fe, d.polls) ||
             (PollVerdict(d.polls) == Completed &&
              ((fe.Dashboard? && d.result.links.None?) ||
               (Saves(d) && (PngName(d.domain) in s.subdirs || PngName(original) in s.subdirs)))))
  {
  }

  /**
   * A domain needs at most 60 result requests and 310 units of sleep, and
   * none unless accepted: the dashboard's extra unit after a completed scan
   * fits, since a completion comes after at most 59 sleeps.
   */
  lemma StepBudget(fe: Frontend, s: RunState, d: DomainInput, original: string)
    ensures var t := DomainStep(fe, s, d, original);
            && s.requests <= t.requests <= s.requests + (if d.submitStatus == 200 then MAX_POLLS else 0)
            && s.clock <= t.clock
            <= s.clock + (if d.submitStatus == 200 then INITIAL_WAIT + MAX_WAIT_TIME else 0)
  {
    var t := DomainStep(fe, s, d, original);
    if !s.crashed && d.submitStatus == 200 && ProgressRaises(fe, d.polls) {
      StepProgressRaises(fe, s, d, original);
    } else if !s.crashed && d.submitStatus == 200 {
      var u := s.(requests := s.requests + RequestsSent(d.polls),
                  clock := s.clock + INITIAL_WAIT + Elapsed(d.polls));
      assert Elapsed(d.polls) <= MAX_WAIT_TIME;
      if PollVerdict(d.polls) == Completed {
        assert Elapsed(d.polls) < MAX_WAIT_TIME;
        RecordBookkeeping(fe, if fe.Dashboard? then u.(clock := u.clock + 1) else u, d, original,
                          BaseCells(d.domain, d.result) + LinksCells(fe, LinksOf(d.result)));
      }
    }
  }

  // ---------------------------------------------------------------- the screenshot stage

  /** The screenshot stage sends no result request and does not sleep; it crashes only on a subdirectory in the way. */
  lemma RecordBookkeeping(fe: Frontend, s: RunState, d: DomainInput, original: string, row: seq<Cell>)
    ensures var t := Record(fe, s, d, original, row);
            && t.requests == s.requests && t.clock == s.clock && t.subdirs == s.subdirs && t.header == s.header
            && (t.crashed <==> s.crashed || (Truthy(d.result.screenshotURL) && d.screenshotStatus == 200 &&
                                            (PngName(d.domain) in s.subdirs || PngName(original) in s.subdirs)))
  {
  }

  /** Phash first, then Similarity exactly when `{original}.png` is in the folder; the score is a percentage. */
  lemma ScreenshotCellsShape(shot: PHash, folder: map<string, PHash>, original: string)
    ensures var c := ScreenshotCells(shot, folder, original);
            && ScreenshotTail(c) && |c| == 1 + Bit(PngName(original) in folder) && c[0] == PhashCell(shot)
  {
  }

  /**
   * Without a crash the assembled row is written exactly once, extended by
   * the screenshot cells exactly when the download succeeded.
   */
  lemma RecordWrites(fe: Frontend, s: RunState, d: DomainInput, original: string, row: seq<Cell>)
    requires !(Truthy(d.result.screenshotURL) && d.screenshotStatus == 200 &&
               (PngName(d.domain) in s.subdirs || PngName(original) in s.subdirs))
    ensures var t := Record(fe, s, d, original, row);
            var saved := Truthy(d.result.screenshotURL) && d.screenshotStatus == 200;
            && t.rows == s.rows + [row + if saved then ScreenshotCells(d.screenshot, t.shots, original) else []]
            && t.shots == if saved then s.shots[PngName(d.domain) := d.screenshot] else s.shots
  {
    if !(Truthy(d.result.screenshotURL) && d.screenshotStatus == 200) {
      assert row + [] == row;
    }
  }

  /** The Similarity cell appears exactly when this domain is the original or the original was saved before. */
  lemma ReferencePresent(s: RunState, d: DomainInput, original: string)
    ensures PngName(original) in s.shots[PngName(d.domain) := d.screenshot]
        <==> d.domain == original || PngName(original) in s.shots
  {
    if PngName(original) == PngName(d.domain) {
      PngNameInjective(original, d.domain);
    }
  }

  // ---------------------------------------------------------------- row assembly

  /** The assembled row: the 18 scalar base cells, then the Links cell unless the dashboard drops an empty list. */
  lemma AssembledShape(fe: Frontend, d: DomainInput)
    ensures var r := Assembled(fe, d);
            && |r| == 18 + Bit(fe == Cli || LinksOf(d.result) != [])
            && r[..18] == BaseCells(d.domain, d.result)
            && (forall i | 0 <= i < 18 :: r[i].Scalar?)
            && (|r| == 19 ==> r[18] == LinkList(LinksOf(d.result)))
  {
    var r := Assembled(fe, d);
    var base := BaseCells(d.domain, d.result);
    assert r[..18] == base;
    assert forall i | 0 <= i < 18 :: r[i] == base[i];
  }

  /** A completed scan that does not crash hands the assembled row to the screenshot stage. */
  lemma CompletedIsRecord(fe: Frontend, s: RunState, d: DomainInput, original: string)
    requires !s.crashed && d.submitStatus == 200 && PollVerdict(d.polls) == Completed
    requires fe == Cli || d.result.links.Some?
    requires !ProgressRaises(fe, d.polls)
    ensures var u := Polled(s, d);
            DomainStep(fe, s, d, original)
            == Record(fe, if fe.Dashboard? then u.(clock := u.clock + 1) else u, d, original, Assembled(fe, d))
  {
  }

  /**
   * A completed scan on the command line appends exactly one row: the 18
   * base cells, the Links cell (the list, or [] when `links` is absent),
   * Phash exactly when the screenshot was downloaded, and Similarity exactly
   * when in addition `{original}.png` is in the folder, which holds the
   * original's earlier screenshot or is the file just written.
   */
  lemma CliCompletedRow(s: RunState, d: DomainInput, original: string)
    requires !s.crashed && d.submitStatus == 200 && PollVerdict(d.polls) == Completed
    requires !(Saves(d) && (PngName(d.domain) in s.subdirs || PngName(original) in s.subdirs))
    ensures var t := DomainStep(Cli, s, d, original);
            && !t.crashed && |t.rows| == |s.rows| + 1 && t.rows[..|s.rows|] == s.rows
            && var row := t.rows[|s.rows|];
               && 19 <= |row| <= 21
               && row[..18] == BaseCells(d.domain, d.result)
               && row[18] == LinkList(LinksOf(d.result))
               && (|row| >= 20 <==> Saves(d))
               && (|row| >= 20 ==> row[19] == PhashCell(d.screenshot))
               && (|row| == 21 <==> Saves(d) && (d.domain == original || PngName(original) in s.shots))
               && (|row| == 21 ==> row[20].SimilarityCell? && 0.0 <= row[20].score <= 100.0)
  {
    var u := Polled(s, d);
    var a := Assembled(Cli, d);
    CompletedIsRecord(Cli, s, d, original);
    RecordWrites(Cli, u, d, original, a);
    RecordBookkeeping(Cli, u, d, original, a);
    AssembledShape(Cli, d);
    var t := DomainStep(Cli, s, d, original);
    var row := t.rows[|s.rows|];
    if Saves(d) {
      var c := ScreenshotCells(d.screenshot, t.shots, original);
      ScreenshotCellsShape(d.screenshot, t.shots, original);
      ReferencePresent(s, d, original);
      assert row == a + c;
      assert row[..18] == a[..18];
      assert row[19] == c[0];
      if |c| == 2 { assert row[20] == c[1]; }
    } else {
      assert row == a;
    }
  }

  /**
   * The dashboard's row: 18 base cells, then Links only for a non-empty
   * list, then Phash and Similarity under the same conditions as on the
   * command line. Its length is 18 + [links != []] + [phash] + [similarity].
   */
  lemma DashboardCompletedRow(bar: ProgressBar, s: RunState, d: DomainInput, original: string)
    requires !s.crashed && d.submitStatus == 200 && PollVerdict(d.polls) == Completed
    requires d.result.links.Some?
    requires !(Saves(d) && (PngName(d.domain) in s.subdirs || PngName(original) in s.subdirs))
    ensures var t := DomainStep(Dashboard(bar), s, d, original);
            (t.crashed <==> ProgressRaises(Dashboard(bar), d.polls)) && (t.crashed ==> t.rows == s.rows)
    ensures var t := DomainStep(Dashboard(bar), s, d, original);
            !t.crashed ==>
            && |t.rows| == |s.rows| + 1 && t.rows[..|s.rows|] == s.rows
            && var row := t.rows[|s.rows|];
               var links := d.result.links.value;
               var similar := Saves(d) && (d.domain == original || PngName(original) in s.shots);
               && |row| == 18 + Bit(links != []) + Bit(Saves(d)) + Bit(similar)
               && row[..18] == BaseCells(d.domain, d.result)
               && (links != [] ==> row[18] == LinkList(links))
               && (Saves(d) ==> row[18 + Bit(links != [])] == PhashCell(d.screenshot))
               && (similar ==> row[|row| - 1].SimilarityCell? && 0.0 <= row[|row| - 1].score <= 100.0)
  {
    var fe := Dashboard(bar);
    if !ProgressRaises(fe, d.polls) {
      var u := Polled(s, d).(clock := Polled(s, d).clock + 1);
      var a := Assembled(fe, d);
      CompletedIsRecord(fe, s, d, original);
      RecordWrites(fe, u, d, original, a);
      RecordBookkeeping(fe, u, d, original, a);
      AssembledShape(fe, d);
      var t := DomainStep(fe, s, d, original);
      var row := t.rows[|s.rows|];
      if Saves(d) {
        var c := ScreenshotCells(d.screenshot, t.shots, original);
        ScreenshotCellsShape(d.screenshot, t.shots, original);
        ReferencePresent(s, d, original);
        assert row == a + c;
        assert row[..18] == a[..18];
        assert row[|a|] == c[0];
        if |c| == 2 { assert row[|row| - 1] == c[1]; }
      } else {
        assert row == a;
      }
    }
  }

  /**
   * With an empty links list a downloaded screenshot's Phash lands in the
   * column headed 'Links', unless the progress bar as written raised first.
   */
  lemma DashboardPhashUnderLinksHeader(bar: ProgressBar, s: RunState, d: DomainInput, original: string)
    requires !s.crashed && Saves(d) && d.result.links == Some([])
    requires PngName(d.domain) !in s.subdirs && PngName(original) !in s.subdirs
    ensures var t := DomainStep(Dashboard(bar), s, d, original);
            if ProgressRaises(Dashboard(bar), d.polls) then t.crashed && t.rows == s.rows
            else |t.rows| == |s.rows| + 1 && FIELDS[18] == "Links" && t.rows[|s.rows|][18] == PhashCell(d.screenshot)
  {
    DashboardCompletedRow(bar, s, d, original);
  }

  /**
   * Unless the progress bar as written raises, which the corrected one never
   * does, the two programs write the same row except that the dashboard
   * leaves out an empty Links cell; folder, requests and crash agree, and the
   * dashboard sleeps one unit more after a completed scan.
   */
  lemma FrontendsAgreeUpToLinks(bar: ProgressBar, s: RunState, d: DomainInput, original: string)
    requires !s.crashed && d.result.links.Some?
    ensures bar == Percent ==> !ProgressRaises(Dashboard(bar), d.polls)
    ensures !ProgressRaises(Dashboard(bar), d.polls) ==>
            var c := DomainStep(Cli, s, d, original);
            var b := DomainStep(Dashboard(bar), s, d, original);
            && c.shots == b.shots && c.requests == b.requests && c.crashed == b.crashed
            && |c.rows| == |b.rows|
            && c.clock + Bit(d.submitStatus == 200 && PollVerdict(d.polls) == Completed) == b.clock
            && (|c.rows| > |s.rows| ==>
                  && c.rows[..|s.rows|] == b.rows[..|s.rows|] == s.rows
                  && b.rows[|s.rows|] == if d.result.links.value == [] then c.rows[|s.rows|][..18] + c.rows[|s.rows|][19..]
                                         else c.rows[|s.rows|])
  {
    var fe := Dashboard(bar);
    CorrectedProgressValid(d.polls);
    if d.submitStatus == 200 && PollVerdict(d.polls) == Completed && !ProgressRaises(fe, d.polls) {
      var u := Polled(s, d);
      var w := u.(clock := u.clock + 1);
      var ac := Assembled(Cli, d);
      var ab := Assembled(fe, d);
      CompletedIsRecord(Cli, s, d, original);
      CompletedIsRecord(fe, s, d, original);
      RecordBookkeeping(Cli, u, d, original, ac);
      RecordBookkeeping(fe, w, d, original, ab);
      if !(Saves(d) && (PngName(d.domain) in s.subdirs || PngName(original) in s.subdirs)) {
        RecordWrites(Cli, u, d, original, ac);
        RecordWrites(fe, w, d, original, ab);
        var sc := Record(Cli, u, d, original, ac).rows[|s.rows|];
        var sb := Record(fe, w, d, original, ab).rows[|s.rows|];
        var tail := sc[|ac|..];
        assert sc == ac + tail && sb == ab + tail;
        if d.result.links.value == [] {
          assert ab == ac[..18];
          assert sc[..18] + sc[19..] == ac[..18] + tail;
        }
      }
    }
  }

  /**
   * When the domain is the original itself, the reference file is the one
   * just written: similarity is exactly 100, unless the dashboard's progress
   * bar as written raised first and no row is written.
   */
  lemma OriginalScoresItself(fe: Frontend, s: RunState, d: DomainInput, original: string)
    requires !s.crashed && Saves(d) && d.domain == original && PngName(original) !in s.subdirs
    requires fe == Cli || d.result.links.Some?
    ensures ProgressRaises(fe, d.polls) ==> DomainStep(fe, s, d, original).rows == s.rows
    ensures !ProgressRaises(fe, d.polls) ==>
            var t := DomainStep(fe, s, d, original);
            && |t.rows| == |s.rows| + 1
            && var row := t.rows[|s.rows|];
               |row| > 0 && row[|row| - 1] == SimilarityCell(100.0)
  {
    if ProgressRaises(fe, d.polls) {
      return;
    }
    var u := if fe.Dashboard? then Polled(s, d).(clock := Polled(s, d).clock + 1) else Polled(s, d);
    CompletedIsRecord(fe, s, d, original);
    RecordWrites(fe, u, d, original, Assembled(fe, d));
    var folder := u.shots[PngName(d.domain) := d.screenshot];
    assert folder[PngName(original)] == d.screenshot;
  }

  // ---------------------------------------------------------------- every step

  /** One step either leaves the rows alone or appends one well-shaped row, and only for an accepted submission. */
  lemma StepRows(fe: Frontend, s: RunState, d: DomainInput, original: string)
    ensures var t := DomainStep(fe, s, d, original);
            t.rows == s.rows || (|t.rows| == |s.rows| + 1 && t.rows[..|s.rows|] == s.rows && WellShaped(fe, t.rows[|s.rows|]))
    ensures |DomainStep(fe, s, d, original).rows| > |s.rows| ==> d.submitStatus == 200
  {
    if !s.crashed && d.submitStatus == 200 && !ProgressRaises(fe, d.polls) && PollVerdict(d.polls) == Completed
       && (fe == Cli || d.result.links.Some?) {
      var u := if fe.Dashboard? then Polled(s, d).(clock := Polled(s, d).clock + 1) else Polled(s, d);
      CompletedIsRecord(fe, s, d, original);
      RecordRows(fe, u, d, original);
    }
  }

  /** The screenshot stage appends the assembled row, extended by a screenshot tail, or nothing at all. */
  lemma RecordRows(fe: Frontend, u: RunState, d: DomainInput, original: string)
    ensures var t := Record(fe, u, d, original, Assembled(fe, d));
            t.rows == u.rows || (|t.rows| == |u.rows| + 1 && t.rows[..|u.rows|] == u.rows && WellShaped(fe, t.rows[|u.rows|]))
  {
    var a := Assembled(fe, d);
    var t := Record(fe, u, d, original, a);
    RecordBookkeeping(fe, u, d, original, a);
    if !t.crashed {
      RecordWrites(fe, u, d, original, a);
      var saved := Truthy(d.result.screenshotURL) && d.screenshotStatus == 200;
      var c := if saved then ScreenshotCells(d.screenshot, t.shots, original) else [];
      if saved { ScreenshotCellsShape(d.screenshot, t.shots, original); }
      AssembledWithTail(fe, d, c);
    }
  }

  /** The assembled row followed by a screenshot tail is well-shaped. */
  lemma AssembledWithTail(fe: Frontend, d: DomainInput, c: seq<Cell>)
    requires ScreenshotTail(c)
    ensures WellShaped(fe, Assembled(fe, d) + c)
  {
    var a := Assembled(fe, d);
    var row := a + c;
    AssembledShape(fe, d);
    assert forall i | 0 <= i < 18 :: row[i] == a[i];
    if |a| == 19 {
      assert row[18] == a[18];
      assert row[18..][0] == row[18];
      assert row[18..][1..] == c;
    } else {
      assert row[18..] == c;
    }
  }

  /** A new row ends in a Similarity cell only if this domain's screenshot was saved and `{original}.png` is then present. */
  lemma StepSimilarityNeedsReference(fe: Frontend, s: RunState, d: DomainInput, original: string)
    requires |DomainStep(fe, s, d, original).rows| > |s.rows|
    ensures var row := DomainStep(fe, s, d, original).rows[|s.rows|];
            |row| > 0 && row[|row| - 1].SimilarityCell? ==>
              Saves(d) && (d.domain == original || PngName(original) in s.shots)
  {
    StepRows(fe, s, d, original);
    var t := DomainStep(fe, s, d, original);
    var u := if fe.Dashboard? then Polled(s, d).(clock := Polled(s, d).clock + 1) else Polled(s, d);
    var a := Assembled(fe, d);
    CompletedIsRecord(fe, s, d, original);
    RecordBookkeeping(fe, u, d, original, a);
    RecordWrites(fe, u, d, original, a);
    AssembledShape(fe, d);
    var row := t.rows[|s.rows|];
    if Saves(d) {
      ReferencePresent(s, d, original);
      var c := ScreenshotCells(d.screenshot, t.shots, original);
      ScreenshotCellsShape(d.screenshot, t.shots, original);
      assert row == a + c;
      assert row[|row| - 1] == c[|c| - 1];
    } else {
      assert row == a;
      assert |a| > 18 ==> a[|a| - 1] == a[18];
      assert |a| == 18 ==> a[|a| - 1] == a[..18][17];
    }
  }

  /** The screenshot folder never holds a file and a subdirectory of the same name. */
  predicate FolderConsistent(s: RunState) {
    s.shots.Keys !! s.subdirs
  }

  lemma StepKeepsFolderConsistent(fe: Frontend, s: RunState, d: DomainInput, original: string)
    requires FolderConsistent(s)
    ensures FolderConsistent(DomainStep(fe, s, d, original))
  {
  }

  // ---------------------------------------------------------------- the loop over domains

  lemma {:induction false} FoldRows(fe: Frontend, s: RunState, ds: seq<DomainInput>, original: string)
    ensures var t := Fold(fe, s, ds, original);
            && |s.rows| <= |t.rows| <= |s.rows| + CountSubmitted(ds)
            && t.rows[..|s.rows|] == s.rows
            && forall i | |s.rows| <= i < |t.rows| :: WellShaped(fe, t.rows[i])
    decreases |ds|
  {
    if ds != [] {
      var init := ds[..|ds| - 1];
      var d := ds[|ds| - 1];
      var p := Fold(fe, s, init, original);
      FoldRows(fe, s, init, original);
      StepRows(fe, p, d, original);
      var t := Fold(fe, s, ds, original);
      assert t == DomainStep(fe, p, d, original);
      RowsExtend(fe, s.rows, p.rows, t.rows, CountSubmitted(init), Bit(d.submitStatus == 200));
    }
  }

  /** Extending a row sequence by nothing or by one well-shaped row keeps the properties FoldRows tracks. */
  lemma RowsExtend(fe: Frontend, a: seq<seq<Cell>>, b: seq<seq<Cell>>, c: seq<seq<Cell>>, m: nat, n: nat)
    requires |a| <= |b| <= |a| + m && b[..|a|] == a && forall i | |a| <= i < |b| :: WellShaped(fe, b[i])
    requires c == b || (n == 1 && |c| == |b| + 1 && c[..|b|] == b && WellShaped(fe, c[|b|]))
    ensures |a| <= |c| <= |a| + m + n && c[..|a|] == a && forall i | |a| <= i < |c| :: WellShaped(fe, c[i])
  {
    if c != b {
      assert forall i | |a| <= i < |b| :: c[i] == b[i];
      assert c[..|a|] == b[..|a|];
    }
  }

  /** A run of n domains, k of them accepted, sends at most 60k result requests and sleeps at most 310k units. */
  lemma {:induction false} FoldBudget(fe: Frontend, s: RunState, ds: seq<DomainInput>, original: string)
    ensures var t := Fold(fe, s, ds, original);
            && t.requests <= s.requests + MAX_POLLS * CountSubmitted(ds)
            && t.clock <= s.clock + (INITIAL_WAIT + MAX_WAIT_TIME) * CountSubmitted(ds)
    decreases |ds|
  {
    if ds != [] {
      var init := ds[..|ds| - 1];
      var d := ds[|ds| - 1];
      var p := Fold(fe, s, init, original);
      var t := Fold(fe, s, ds, original);
      assert t == DomainStep(fe, p, d, original);
      FoldBudget(fe, s, init, original);
      StepBudget(fe, p, d, original);
      var k := CountSubmitted(init);
      var w := INITIAL_WAIT + MAX_WAIT_TIME;
      assert p.requests <= s.requests + MAX_POLLS * k && p.clock <= s.clock + w * k;
      if d.submitStatus == 200 {
        assert CountSubmitted(ds) == k + 1;
        assert t.requests <= p.requests + MAX_POLLS && t.clock <= p.clock + w;
        MulStep(MAX_POLLS, k);
        MulStep(w, k);
      } else {
        assert CountSubmitted(ds) == k;
        assert t.requests == p.requests && t.clock == p.clock;
      }
    }
  }

  /** The one nonlinear step FoldBudget's induction needs: one more accepted domain adds one more budget. */
  lemma MulStep(a: nat, k: nat)
    ensures a * (k + 1) == a * k + a
  {
  }

  lemma {:induction false} FoldKeepsFolderConsistent(fe: Frontend, s: RunState, ds: seq<DomainInput>, original: string)
    requires FolderConsistent(s)
    ensures FolderConsistent(Fold(fe, s, ds, original))
    decreases |ds|
  {
    if ds != [] {
      var init := ds[..|ds| - 1];
      FoldKeepsFolderConsistent(fe, s, init, original);
      StepKeepsFolderConsistent(fe, Fold(fe, s, init, original), ds[|ds| - 1], original);
    }
  }

  /** A step saves at most one file: this domain's screenshot, and only when it was downloaded. */
  lemma StepShots(fe: Frontend, s: RunState, d: DomainInput, original: string)
    ensures var t := DomainStep(fe, s, d, original);
            t.shots == s.shots || (Saves(d) && t.shots == s.shots[PngName(d.domain) := d.screenshot])
  {
    if !s.crashed && d.submitStatus == 200 && !ProgressRaises(fe, d.polls) && PollVerdict(d.polls) == Completed
       && (fe == Cli || d.result.links.Some?) {
      var u := if fe.Dashboard? then Polled(s, d).(clock := Polled(s, d).clock + 1) else Polled(s, d);
      CompletedIsRecord(fe, s, d, original);
    }
  }

  /** Starting from a cleared folder, every file in it is the screenshot some domain of this run saved. */
  lemma {:induction false} FoldScreenshotsFromRun(fe: Frontend, s: RunState, ds: seq<DomainInput>, original: string)
    requires s.shots == map[]
    ensures var t := Fold(fe, s, ds, original);
            forall n | n in t.shots ::
              exists j | 0 <= j < |ds| :: Saves(ds[j]) && n == PngName(ds[j].domain) && t.shots[n] == ds[j].screenshot
    decreases |ds|
  {
    if ds != [] {
      var init := ds[..|ds| - 1];
      var d := ds[|ds| - 1];
      var p := Fold(fe, s, init, original);
      var t := Fold(fe, s, ds, original);
      FoldScreenshotsFromRun(fe, s, init, original);
      assert var t0 := Fold(fe, s, init, original);
            forall n | n in t0.shots ::
              exists j | 0 <= j < |init| :: Saves(init[j]) && n == PngName(init[j].domain) && t0.shots[n] == init[j].screenshot;
      StepShots(fe, p, d, original);
      forall n | n in t.shots
        ensures exists j | 0 <= j < |ds| :: Saves(ds[j]) && n == PngName(ds[j].domain) && t.shots[n] == ds[j].screenshot
      {
        if t.shots != p.shots && n == PngName(d.domain) {
          assert Saves(ds[|ds| - 1]) && n == PngName(ds[|ds| - 1].domain) && t.shots[n] == ds[|ds| - 1].screenshot;
        } else {
          assert n in p.shots && t.shots[n] == p.shots[n];
          assert exists j | 0 <= j < |init| :: Saves(init[j]) && n == PngName(init[j].domain) && p.shots[n] == init[j].screenshot;
          var j :| 0 <= j < |init| && Saves(init[j]) && n == PngName(init[j].domain) && p.shots[n] == init[j].screenshot;
          assert ds[j] == init[j];
        }
      }
    }
  }

  /**
   * Across iterations: a Similarity cell in the row of domain i means the
   * original domain itself was processed at some position j <= i and its
   * screenshot was saved then, since the folder was emptied at the start.
   */
  lemma SimilarityNeedsOriginalSaved(fe: Frontend, s: RunState, ds: seq<DomainInput>, original: string, i: nat)
    requires s.shots == map[] && i < |ds|
    requires var p := Fold(fe, s, ds[..i], original);
             var t := Fold(fe, s, ds[..i + 1], original);
             |t.rows| > |p.rows| && |t.rows[|p.rows|]| > 0 && t.rows[|p.rows|][|t.rows[|p.rows|]| - 1].SimilarityCell?
    ensures exists j | 0 <= j <= i :: ds[j].domain == original && Saves(ds[j])
  {
    var init := ds[..i];
    var p := Fold(fe, s, init, original);
    assert ds[..i + 1][..i] == init;
    StepSimilarityNeedsReference(fe, p, ds[i], original);
    if ds[i].domain != original {
      FoldScreenshotsFromRun(fe, s, init, original);
      var j :| 0 <= j < |init| && Saves(init[j]) && PngName(original) == PngName(init[j].domain);
      PngNameInjective(original, init[j].domain);
      assert ds[j] == init[j];
    }
  }

  /** Once an exception has ended the run, the remaining domains change nothing. */
  lemma {:induction false} FoldStaysCrashed(fe: Frontend, s: RunState, ds: seq<DomainInput>, original: string, i: nat)
    requires i <= |ds| && Fold(fe, s, ds[..i], original).crashed
    ensures Fold(fe, s, ds, original) == Fold(fe, s, ds[..i], original)
    decreases |ds| - i
  {
    if i == |ds| {
      assert ds[..i] == ds;
    } else {
      assert ds[..i + 1][..i] == ds[..i];
      assert Fold(fe, s, ds[..i + 1], original) == Fold(fe, s, ds[..i], original);
      FoldStaysCrashed(fe, s, ds, original, i + 1);
    }
  }

  // ---------------------------------------------------------------- whole runs

  /** A missing or empty permutation CSV: no domain is processed, no report is written, and the folder stays empty. */
  lemma NoPermutationsNoScan(fe: Frontend, s: RunState, original: string, permutations: Option<seq<DomainInput>>)
    requires permutations.None? || permutations == Some([])
    ensures var t := RunSpec(fe, s, original, permutations);
            && !t.header && t.rows == [] && t.shots == map[] && t.requests == s.requests
            && t.log == s.log + (if permutations.None? then [PermutationsMissing] else [])
  {
  }

  /** Every screenshot present after a run was saved by one of that run's domains. */
  lemma RunScreenshotsFromRun(fe: Frontend, s: RunState, original: string, permutations: Option<seq<DomainInput>>)
    ensures var t := RunSpec(fe, s, original, permutations);
            forall n | n in t.shots ::
              permutations.Some? &&
              exists j | 0 <= j < |permutations.value| ::
                Saves(permutations.value[j]) && n == PngName(permutations.value[j].domain)
  {
    if permutations.Some? && permutations.value != [] {
      var ds := permutations.value;
      var t := RunSpec(fe, s, original, permutations);
      var s0 := Started(fe, s).(header := true);
      FoldScreenshotsFromRun(fe, s0, ds, original);
      assert t == Fold(fe, s0, ds, original);
      assert var t0 := Fold(fe, s0, ds, original);
             forall n | n in t0.shots ::
               exists j | 0 <= j < |ds| :: Saves(ds[j]) && n == PngName(ds[j].domain) && t0.shots[n] == ds[j].screenshot;
    }
  }

  /** A run with domains writes the header and then only well-shaped rows, at most one per accepted domain. */
  lemma RunRows(fe: Frontend, s: RunState, original: string, ds: seq<DomainInput>)
    requires ds != []
    ensures var t := RunSpec(fe, s, original, Some(ds));
            && t.header && |t.rows| <= CountSubmitted(ds)
            && forall i | 0 <= i < |t.rows| :: WellShaped(fe, t.rows[i])
  {
    FoldRows(fe, Started(fe, s).(header := true), ds, original);
    FoldHeader(fe, Started(fe, s).(header := true), ds, original);
  }

  lemma {:induction false} FoldHeader(fe: Frontend, s: RunState, ds: seq<DomainInput>, original: string)
    ensures Fold(fe, s, ds, original).header == s.header
    decreases |ds|
  {
    if ds != [] {
      var p := Fold(fe, s, ds[..|ds| - 1], original);
      FoldHeader(fe, s, ds[..|ds| - 1], original);
      StepHeader(fe, p, ds[|ds| - 1], original);
    }
  }

  /** A step never touches the CSV header. */
  lemma StepHeader(fe: Frontend, s: RunState, d: DomainInput, original: string)
    ensures DomainStep(fe, s, d, original).header == s.header
  {
    if !s.crashed && d.submitStatus == 200 && !ProgressRaises(fe, d.polls) && PollVerdict(d.polls) == Completed
       && (fe == Cli || d.result.links.Some?) {
      var u := if fe.Dashboard? then Polled(s, d).(clock := Polled(s, d).clock + 1) else Polled(s, d);
      CompletedIsRecord(fe, s, d, original);
      RecordBookkeeping(fe, u, d, original, Assembled(fe, d));
    }
  }
}
