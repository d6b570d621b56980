/**
 * POST /api/scan: forwards an uploaded file to the virus scanner, then polls
 * the analysis report with a linear back-off until it completes, the scanner
 * answers with an error, or the attempts run out.
 */
module ScanRoute {
  import opened Wrappers
  import opened Http
  import opened Strings

  /** At most this many report fetches. */
  const MaxRetries: nat := 10
  /** The back-off unit in milliseconds: after attempt `k` the handler sleeps `RetryDelay * (k + 1)`. */
  const RetryDelay: nat := 4000

  datatype Stats = Stats(malicious: int, suspicious: int, undetected: int)

  /** The scanner's answer to the upload: its status, the analysis id, and its `error` field. */
  datatype UploadReply = UploadReply(status: int, analysisId: string, error: string)

  /** The scanner's answer to one report fetch. */
  datatype ReportReply = ReportReply(status: int, analysisStatus: string, stats: Stats, error: string)

  /** What the handler answers with on 200. */
  datatype ScanBody = ScanBody(complete: bool, fileName: string, data: Stats)

  /** The message thrown for a non-200 answer, from the upload and from a report fetch alike. */
  function UpstreamError(status: int, error: string): string
  {
    "Error uploading file \n" + error + " \nStatus Code: " + IntToDecimal(status)
  }

  /** A report that arrived but is not finished: the handler sleeps and tries again. */
  predicate NotReady(r: ReportReply)
  {
    r.status == 200 && r.analysisStatus != "completed"
  }

  /** The sleeps after the first `n` unfinished reports, in order. */
  function Backoff(n: nat): (d: seq<nat>)
    ensures |d| == n
    ensures forall k :: 0 <= k < n ==> d[k] == RetryDelay * (k + 1)
  {
    if n == 0 then [] else Backoff(n - 1) + [RetryDelay * n]
  }

  /** Total time slept. */
  function Total(d: seq<nat>): nat
  {
    if d == [] then 0 else Total(d[..|d| - 1]) + d[|d| - 1]
  }

  /** The first `n` sleeps add up to 2000·n·(n+1) milliseconds. */
  lemma {:induction false} BackoffTotal(n: nat)
    ensures Total(Backoff(n)) == 2000 * n * (n + 1)
  {
    if n > 0 {
      var d := Backoff(n);
      assert d[..n - 1] == Backoff(n - 1);
      BackoffTotal(n - 1);
      calc {
        Total(d);
        Total(Backoff(n - 1)) + 4000 * n;
        2000 * (n - 1) * n + 4000 * n;
        { assert 2000 * (n - 1) * n == 2000 * n * n - 2000 * n; }
        2000 * n * n + 2000 * n;
        2000 * n * (n + 1);
      }
    }
  }

  /**
   * The handler. `upload` is the scanner's answer to the upload and
   * `report(id, k)` its answer to the report fetch for analysis `id` at
   * attempt `k`. `uploaded` says whether the upload request was made,
   * `fetches` counts report fetches and `waits` logs the sleeps in order.
   */
  method Post(session: Option<Session>, form: FormField, upload: UploadReply, report: (string, nat) -> ReportReply)
    returns (reply: Reply<ScanBody>, uploaded: bool, fetches: nat, ghost waits: seq<nat>)
    ensures uploaded <==> session.Some? && form.FileField?
    ensures session.None? ==> reply == ErrorJson(401, "Not authenticated")
    ensures session.Some? && form.NotAFile? ==> reply == ErrorJson(400, "File missing")
    ensures !uploaded || upload.status != 200 ==> fetches == 0 && waits == []
    ensures uploaded && upload.status != 200 ==> reply == ErrorJson(500, UpstreamError(upload.status, upload.error))
    ensures uploaded && upload.status == 200 ==> 1 <= fetches <= MaxRetries
    ensures forall k :: 0 <= k < fetches - 1 ==> NotReady(report(upload.analysisId, k))
    ensures fetches > 0 ==>
      var last := report(upload.analysisId, fetches - 1);
      if last.status != 200 then
        reply == ErrorJson(500, UpstreamError(last.status, last.error)) && waits == Backoff(fetches - 1)
      else if last.analysisStatus == "completed" then
        reply == Json(ScanBody(true, form.file.name, last.stats)) && waits == Backoff(fetches - 1)
      else
        && fetches == MaxRetries && waits == Backoff(MaxRetries)
        && reply == Json(ScanBody(false, form.file.name, Stats(0, 0, 0)))
  {
    fetches, waits := 0, [];
    if session.None? {
      return ErrorJson(401, "Not authenticated"), false, fetches, waits;
    }
    if form.NotAFile? {
      return ErrorJson(400, "File missing"), false, fetches, waits;
    }
    uploaded := true;
    if upload.status != 200 {
      return ErrorJson(500, UpstreamError(upload.status, upload.error)), uploaded, fetches, waits;
    }
    var analysisId := upload.analysisId;
    var attempt: nat := 0;
    while attempt < MaxRetries
      invariant attempt <= MaxRetries
      invariant fetches == attempt
      invariant waits == Backoff(attempt)
      invariant forall k :: 0 <= k < attempt ==> NotReady(report(analysisId, k))
    {
      var r := report(analysisId, attempt);
      fetches := fetches + 1;
      if r.status == 200 {
        if r.analysisStatus == "completed" {
          return Json(ScanBody(true, form.file.name, r.stats)), uploaded, fetches, waits;
        }
        waits := waits + [RetryDelay * (attempt + 1)];
      } else {
        return ErrorJson(500, UpstreamError(r.status, r.error)), uploaded, fetches, waits;
      }
      attempt := attempt + 1;
    }
    reply := Json(ScanBody(false, form.file.name, Stats(0, 0, 0)));
  }

  /** A report that completes on the third fetch: three fetches, two sleeps of 4 and 8 seconds. */
  method CompletesOnThirdFetch(session: Session, b: Blob, analysisId: string, stats: Stats)
    returns (reply: Reply<ScanBody>, fetches: nat, ghost waits: seq<nat>)
    ensures reply == Json(ScanBody(true, b.name, stats))
    ensures fetches == 3 && waits == [4000, 8000]
  {
    var queued := ReportReply(200, "queued", Stats(0, 0, 0), "");
    var done := ReportReply(200, "completed", stats, "");
    var scanner := (id: string, k: nat) => if k < 2 then queued else done;
    var uploaded;
    reply, uploaded, fetches, waits := Post(Some(session), FileField(b), UploadReply(200, analysisId, ""), scanner);
    assert scanner(analysisId, 2) == done && !NotReady(done);
    assert forall k: nat :: k < 2 ==> scanner(analysisId, k) == queued;
    assert Backoff(2) == [4000, 8000];
  }

  /** A report that never completes: ten fetches, ten sleeps totalling 220 seconds, and an incomplete answer. */
  method NeverCompletes(session: Session, b: Blob, analysisId: string)
    returns (reply: Reply<ScanBody>, fetches: nat, ghost slept: nat)
    ensures reply == Json(ScanBody(false, b.name, Stats(0, 0, 0)))
    ensures fetches == MaxRetries && slept == 220000
  {
    var queued := ReportReply(200, "queued", Stats(0, 0, 0), "");
    var uploaded;
    ghost var waits;
    reply, uploaded, fetches, waits :=
      Post(Some(session), FileField(b), UploadReply(200, analysisId, ""), (id: string, k: nat) => queued);
    BackoffTotal(MaxRetries);
    slept := Total(waits);
  }

  /** A scanner error on the first report fetch stops the loop: one fetch, no sleep. */
  method ReportErrorStops(session: Session, b: Blob, analysisId: string, failed: ReportReply)
    returns (reply: Reply<ScanBody>, fetches: nat, ghost waits: seq<nat>)
    requires failed.status != 200
    ensures reply == ErrorJson(500, UpstreamError(failed.status, failed.error))
    ensures fetches == 1 && waits == []
  {
    var scanner := (id: string, k: nat) => failed;
    var uploaded;
    reply, uploaded, fetches, waits := Post(Some(session), FileField(b), UploadReply(200, analysisId, ""), scanner);
    assert scanner(analysisId, 0) == failed && !NotReady(failed);
  }
}
