// The result poll loop: after a successful submission the scanner asks for
// the result every POLL_INTERVAL until the service answers 200 (done), any
// status other than 404 (failure), or MAX_WAIT_TIME has been spent waiting.

module Polling {
  import opened Scan

  /** How the poll loop ends. */
  datatype Verdict = Completed | Failed(status: int) | TimedOut

  /** The number of leading 404 answers among the first `limit` responses. */
  function Leading404(polls: seq<int>, limit: nat): (k: nat)
    ensures k <= limit && k <= |polls|
    ensures forall j | 0 <= j < k :: polls[j] == 404
    ensures k < limit && k < |polls| ==> polls[k] != 404
    decreases limit
  {
    if limit == 0 || |polls| == 0 || polls[0] != 404 then 0
    else 1 + Leading404(polls[1..], limit - 1)
  }

  /** The 404 answers the loop receives (and sleeps after) before it ends. */
  function Pending(polls: Responses): nat {
    Leading404(polls, MAX_POLLS)
  }

  function PollVerdict(polls: Responses): Verdict {
    var k := Pending(polls);
    if k == MAX_POLLS then TimedOut
    else if polls[k] == 200 then Completed
    else Failed(polls[k])
  }

  /** Result requests the loop sends: one per 404, plus the final one unless it timed out. */
  function RequestsSent(polls: Responses): nat {
    var k := Pending(polls);
    if k == MAX_POLLS then k else k + 1
  }

  /** Value of `elapsed_time` when the loop ends. */
  function Elapsed(polls: Responses): nat {
    POLL_INTERVAL * Pending(polls)
  }

  /**
   * The loop at twistscan.py:99-168 without its side effects: it returns how
   * the loop ended, how many result requests it sent, and the final
   * `elapsed_time`.
   */
  method PollForResult(polls: Responses) returns (verdict: Verdict, sent: nat, elapsed: nat)
    ensures verdict == PollVerdict(polls)
    ensures sent == RequestsSent(polls)
    ensures elapsed == Elapsed(polls)
    ensures 1 <= sent <= MAX_POLLS
    ensures elapsed % POLL_INTERVAL == 0 && elapsed <= MAX_WAIT_TIME
  {
    elapsed, sent := 0, 0;
    verdict := TimedOut;
    while elapsed < MAX_WAIT_TIME
      invariant sent <= MAX_POLLS && elapsed == POLL_INTERVAL * sent
      invariant forall j | 0 <= j < sent :: polls[j] == 404
      invariant verdict == TimedOut
      decreases MAX_WAIT_TIME - elapsed
    {
      var status := polls[sent];
      sent := sent + 1;
      if status == 200 {
        verdict := Completed;
        break;
      } else if status == 404 {
        elapsed := elapsed + POLL_INTERVAL;
      } else {
        verdict := Failed(status);
        break;
      }
    }
  }

  /** The loop completes exactly when a 200 arrives within 60 requests, after nothing but 404s. */
  lemma CompletedIff(polls: Responses)
    ensures PollVerdict(polls) == Completed <==>
            exists k | 0 <= k < MAX_POLLS :: polls[k] == 200 && forall j | 0 <= j < k :: polls[j] == 404
  {
    var n := Pending(polls);
    if PollVerdict(polls) == Completed {
      assert n < MAX_POLLS && polls[n] == 200;
    }
  }

  /** The loop fails with `s` exactly when `s`, neither 200 nor 404, arrives within 60 requests after nothing but 404s. */
  lemma FailedIff(polls: Responses, s: int)
    ensures PollVerdict(polls) == Failed(s) <==>
            s != 200 && s != 404 &&
            exists k | 0 <= k < MAX_POLLS :: polls[k] == s && forall j | 0 <= j < k :: polls[j] == 404
  {
    var n := Pending(polls);
    if PollVerdict(polls) == Failed(s) {
      assert n < MAX_POLLS && polls[n] == s;
    }
  }

  /** The loop times out exactly when the first 60 answers are all 404. */
  lemma TimedOutIff(polls: Responses)
    ensures PollVerdict(polls) == TimedOut <==> forall j | 0 <= j < MAX_POLLS :: polls[j] == 404
  {
    var n := Pending(polls);
    if n < MAX_POLLS {
      assert polls[n] != 404;
    }
  }

  /** On a timeout the loop has sent all 60 requests and waited the full 300 units. */
  lemma TimedOutSpendsBudget(polls: Responses)
    requires PollVerdict(polls) == TimedOut
    ensures RequestsSent(polls) == MAX_POLLS && Elapsed(polls) == MAX_WAIT_TIME
  {
  }

  // ---------------------------------------------------------------- the dashboard's progress bar

  /** Streamlit accepts an integer progress value only from 0 to 100. */
  predicate ProgressValid(v: int) {
    0 <= v <= 100
  }

  /** The value the dashboard's poll loop passes to the progress bar after a 404, as written: `elapsed_time` itself. */
  function ProgressAsWritten(elapsed: nat): nat {
    elapsed
  }

  /** The evidently intended value: the share of the waiting budget spent, in percent. */
  function ProgressPercent(elapsed: nat): (p: nat)
    requires elapsed <= MAX_WAIT_TIME
    ensures ProgressValid(p)
    ensures p == 0 <==> elapsed < MAX_WAIT_TIME / 100
    ensures p == 100 <==> elapsed == MAX_WAIT_TIME
  {
    elapsed * 100 / MAX_WAIT_TIME
  }

  function ProgressValue(bar: ProgressBar, elapsed: nat): nat
    requires elapsed <= MAX_WAIT_TIME
  {
    match bar
    case AsWritten => ProgressAsWritten(elapsed)
    case Percent => ProgressPercent(elapsed)
  }

  /**
   * How many 404 answers the progress bar accepts before it rejects one: as
   * written the j-th 404 (from 0) passes POLL_INTERVAL * j, so the 22nd is
   * the first out of range; with the corrected value none ever is.
   */
  function Accepted404s(bar: ProgressBar): nat {
    match bar
    case AsWritten => 100 / POLL_INTERVAL + 1
    case Percent => MAX_POLLS
  }

  /** The progress update after the j-th 404 (from 0) is accepted exactly while j is below Accepted404s. */
  lemma ProgressAcceptedIff(bar: ProgressBar, j: nat)
    requires j < MAX_POLLS
    ensures ProgressValid(ProgressValue(bar, POLL_INTERVAL * j)) <==> j < Accepted404s(bar)
  {
  }

  /** The dashboard's poll loop receives a 404 whose progress update raises, which ends the script run. */
  predicate ProgressRejects(bar: ProgressBar, polls: Responses) {
    Accepted404s(bar) < Pending(polls)
  }

  /**
   * As written, the progress bar is given a value above 100 exactly when the
   * scan is still pending after 21 result requests: every scan that takes over
   * 105 units, and so every timeout.
   */
  lemma AsWrittenProgressFailsIff(polls: Responses)
    ensures (exists j | 0 <= j < Pending(polls) :: !ProgressValid(ProgressAsWritten(POLL_INTERVAL * j)))
            <==> Pending(polls) > 21
    ensures ProgressRejects(AsWritten, polls) <==> Pending(polls) > 21
  {
    if Pending(polls) > 21 {
      assert !ProgressValid(ProgressAsWritten(POLL_INTERVAL * 21));
    }
  }

  /** With the corrected value every progress update the poll loop makes is accepted. */
  lemma CorrectedProgressValid(polls: Responses)
    ensures forall j | 0 <= j < Pending(polls) ::
              POLL_INTERVAL * j <= MAX_WAIT_TIME && ProgressValid(ProgressPercent(POLL_INTERVAL * j))
    ensures !ProgressRejects(Percent, polls)
  {
  }
}
