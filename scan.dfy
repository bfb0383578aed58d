// The data both scanner front ends share: the urlscan.io result record as far
// as the report uses it, the per-domain behaviour of the service given as
// input, the cells of a report row and the report's fixed header.

module Scan {
  import opened Similarity

  const MAX_WAIT_TIME: nat := 300
  const POLL_INTERVAL: nat := 5
  /** The `time.sleep(10)` between a successful submission and the first result request. */
  const INITIAL_WAIT: nat := 10
  /** How many result requests fit in MAX_WAIT_TIME: 60. */
  const MAX_POLLS: nat := MAX_WAIT_TIME / POLL_INTERVAL

  datatype Option<T> = None | Some(value: T)

  /** A scalar JSON value as it appears in the result's `page` and `task` objects. */
  datatype Value = Str(s: string) | Num(n: int) | Bool(b: bool) | Null

  /** Python truthiness of a JSON scalar (`if screenshot_url:`). */
  predicate Truthy(v: Value) {
    match v
    case Str(s) => s != ""
    case Num(n) => n != 0
    case Bool(b) => b
    case Null => false
  }

  /** One entry of `data.links`, kept as the dictionary the service returns. */
  datatype Link = Link(attributes: map<string, Value>)

  /**
   * The parts of a completed scan the report reads: the `page` object, the
   * `task` object's report and screenshot URLs, and `data.links` (None when
   * the `links` key is absent from `data`).
   */
  datatype ScanResult = ScanResult(
    page: map<string, Value>,
    reportURL: Value,
    screenshotURL: Value,
    links: Option<seq<Link>>)

  /** Status codes of successive result requests; the service answers every request the loop can send. */
  type Responses = p: seq<int> | |p| >= MAX_POLLS witness seq(MAX_POLLS, _ => 404)

  /**
   * One permutation domain together with everything the service and the file
   * system answer about it: the submission status, the statuses of the result
   * requests, the result record sent with the 200, the screenshot request's
   * status, and the pHash of the screenshot image it returns.
   */
  datatype DomainInput = DomainInput(
    domain: string,
    submitStatus: int,
    polls: Responses,
    result: ScanResult,
    screenshotStatus: int,
    screenshot: PHash)

  /** A cell of the URLScan CSV. */
  datatype Cell =
    | Scalar(value: Value)
    | LinkList(links: seq<Link>)
    | PhashCell(hash: PHash)
    | SimilarityCell(score: real)

  /** The `'N/A'` written for a key the `page` object lacks. */
  const NA: Cell := Scalar(Str("N/A"))

  /** The header row of the URLScan CSV. */
  const FIELDS: seq<string> := [
    "DNSTwist Domain", "URLScan Domain", "Report URL", "ASN", "ASN Name", "IP", "Country", "Server", "URL", "Redirected",
    "MIME Type", "Title", "TLS Valid Days", "TLS Age Days", "TLS Valid From",
    "Apex Domain", "TLS Issuer", "Status", "Links", "Phash", "Similarity"
  ]

  /** Which key of the result's `page` object each page-derived column comes from. */
  const PAGE_KEY: map<string, string> := map[
    "URLScan Domain" := "domain", "ASN" := "asn", "ASN Name" := "asnname", "IP" := "ip",
    "Country" := "country", "Server" := "server", "URL" := "url", "Redirected" := "redirected",
    "MIME Type" := "mimeType", "Title" := "title", "TLS Valid Days" := "tlsValidDays",
    "TLS Age Days" := "tlsAgeDays", "TLS Valid From" := "tlsValidFrom", "Apex Domain" := "apexDomain",
    "TLS Issuer" := "tlsIssuer", "Status" := "status"
  ]

  /** `result_data['page'].get(key, 'N/A')`. */
  function PageCell(page: map<string, Value>, key: string): (c: Cell)
    ensures c.Scalar?
  {
    if key in page then Scalar(page[key]) else NA
  }

  /**
   * The first 18 cells of every row, DNSTwist Domain through Status: the
   * permutation domain, the page fields and the report URL, all scalars.
   */
  function BaseCells(domain: string, r: ScanResult): (cells: seq<Cell>)
    ensures |cells| == 18 && forall i | 0 <= i < 18 :: cells[i].Scalar?
  {
    [
      Scalar(Str(domain)),
      PageCell(r.page, "domain"),
      Scalar(r.reportURL),
      PageCell(r.page, "asn"),
      PageCell(r.page, "asnname"),
      PageCell(r.page, "ip"),
      PageCell(r.page, "country"),
      PageCell(r.page, "server"),
      PageCell(r.page, "url"),
      PageCell(r.page, "redirected"),
      PageCell(r.page, "mimeType"),
      PageCell(r.page, "title"),
      PageCell(r.page, "tlsValidDays"),
      PageCell(r.page, "tlsAgeDays"),
      PageCell(r.page, "tlsValidFrom"),
      PageCell(r.page, "apexDomain"),
      PageCell(r.page, "tlsIssuer"),
      PageCell(r.page, "status")
    ]
  }

  /**
   * Each base cell sits under its own header column: cell 0 is the
   * permutation domain, cell 2 the report URL, and every other cell the
   * page field its header names, or 'N/A' when the page lacks it.
   */
  lemma BaseCellsInHeaderOrder(domain: string, r: ScanResult)
    ensures var cells := BaseCells(domain, r);
            && FIELDS[0] == "DNSTwist Domain" && cells[0] == Scalar(Str(domain))
            && FIELDS[2] == "Report URL" && cells[2] == Scalar(r.reportURL)
            && forall i | 0 <= i < 18 && i != 0 && i != 2 ::
                 && FIELDS[i] in PAGE_KEY
                 && (PAGE_KEY[FIELDS[i]] in r.page ==> cells[i] == Scalar(r.page[PAGE_KEY[FIELDS[i]]]))
                 && (PAGE_KEY[FIELDS[i]] !in r.page ==> cells[i] == NA)
  {
  }

  /** The file name `{domain}.png` under which a domain's screenshot is saved. */
  function PngName(domain: string): string {
    domain + ".png"
  }

  /** Distinct domains never share a screenshot file. */
  lemma PngNameInjective(x: string, y: string)
    requires PngName(x) == PngName(y)
    ensures x == y
  {
    assert |x| == |y|;
    assert x == PngName(x)[..|x|];
    assert y == PngName(y)[..|y|];
  }

  /**
   * A run's configuration: the original domain, the urlscan.io API key (an
   * unset environment variable reads as ""), the two CSV paths and the
   * screenshot folder.
   */
  datatype Config = Config(
    domain: string,
    apiKey: string,
    dnstwistOutput: string,
    urlscanOutput: string,
    screenshotFolder: string)

  /**
   * The value the dashboard hands its progress bar after each 404: the
   * script's `elapsed_time` itself, or the share of the waiting budget spent,
   * in percent, which is evidently what was meant.
   */
  datatype ProgressBar = AsWritten | Percent

  /** The two programs that run the pipeline: the command line script and the Streamlit dashboard. */
  datatype Frontend = Cli | Dashboard(bar: ProgressBar)

  /** The error and warning messages the programs show (informational output is not modelled). */
  datatype Notice =
    | BadRequest(domain: string)
    | SubmitFailed(domain: string)
    | ResultFailed(domain: string)
    | ScreenshotNotFound(domain: string)
    | ScreenshotFailed(domain: string)
    | PermutationsMissing
    | ConfigurationIncomplete
}
