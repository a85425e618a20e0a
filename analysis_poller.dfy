/** What one run of `pollAnalysis` does: fetch the record, stop on a
    terminal status, on any fetch that brings no usable record, or after
    the sixtieth attempt. The fixed five-second delay between attempts is
    one loop iteration. The fetch answers are given, in order; when they run
    out, the next fetch is issued and never settles. */
module AnalysisPoller {
  import opened Shared
  import opened Records

  const MaxAttempts: nat := 60

  /** One answer of `getVideoAnalysis`: a record, neither record nor error,
      or an error. */
  type Fetch = Reply<VideoAnalysis>

  /** The statuses for which polling goes on. */
  predicate InFlight(s: Status) {
    s == Processing || s == Uploading
  }

  predicate Terminal(s: Status) {
    s == Completed || s == Failed
  }

  const CompletedToast: Toast := Toast("Analysis complete", "Your video has been analyzed successfully", false)
  const AnalysisFailureFallback: string := "An error occurred during analysis"

  /** The notification for a record that reached a terminal status: success,
      or failure with the record's error message (the fallback text when it
      is absent or empty). */
  function StatusToast(record: VideoAnalysis): (t: Toast)
    requires Terminal(record.status)
    ensures t.destructive <==> record.status == Failed
    ensures record.status == Failed ==>
      t.description == OptionOrElse(record.errorMessage, AnalysisFailureFallback)
  {
    if record.status == Completed then CompletedToast
    else Toast("Analysis failed", OptionOrElse(record.errorMessage, AnalysisFailureFallback), true)
  }

  /** The observable effect of polling: how many fetches were issued, the
      records received (each one replaces the current record, in order), and
      the notifications shown. */
  datatype PollRun = PollRun(fetches: nat, records: seq<VideoAnalysis>, toasts: seq<Toast>)

  /** Polling after `done` attempts have already been made and the loop has
      decided to go on. */
  function PollFrom(replies: seq<Fetch>, done: nat): (r: PollRun)
    requires done < MaxAttempts
    decreases MaxAttempts - done
    // never more than the attempt ceiling
    ensures 1 <= r.fetches <= MaxAttempts - done
    // every fetch but possibly the last delivered a record
    ensures |r.records| <= r.fetches <= |r.records| + 1
    ensures forall i :: 0 <= i < |r.records| ==> done + i < |replies| && replies[done + i] == Data(r.records[i])
    // polling went on only past records that were still uploading or processing
    ensures forall i :: 0 <= i < |r.records| - 1 ==> InFlight(r.records[i].status)
    // one notification at most, exactly when the last record is terminal
    ensures |r.toasts| <= 1
    ensures r.toasts != [] <==> r.records != [] && Terminal(Last(r.records).status)
    ensures r.toasts != [] ==> r.toasts == [StatusToast(Last(r.records))] && r.fetches == |r.records|
    // a fetch without a record (error, nothing, or never settling) ends polling
    ensures r.fetches == |r.records| + 1 ==>
      done + |r.records| >= |replies| || !replies[done + |r.records|].Data?
    // after a record, one more fetch is issued only when that record was still in flight, below the ceiling
    ensures r.records != [] && r.fetches == |r.records| + 1 ==>
      InFlight(Last(r.records).status) && done + |r.records| < MaxAttempts
    // a record still in flight ends polling only at the ceiling
    ensures r.fetches == |r.records| && InFlight(Last(r.records).status) ==> done + r.fetches == MaxAttempts
  {
    if done >= |replies| then PollRun(1, [], [])
    else
      match replies[done]
      case Error(_) => PollRun(1, [], [])
      case NoData => PollRun(1, [], [])
      case Data(record) =>
        if Terminal(record.status) then PollRun(1, [record], [StatusToast(record)])
        else if done + 1 < MaxAttempts && InFlight(record.status) then
          var rest := PollFrom(replies, done + 1);
          PollRun(1 + rest.fetches, [record] + rest.records, rest.toasts)
        else PollRun(1, [record], [])
  }

  /** A whole polling run, from the first attempt. */
  function Poll(replies: seq<Fetch>): (r: PollRun)
    ensures r.fetches <= MaxAttempts
  {
    PollFrom(replies, 0)
  }

  /** When the service keeps answering "uploading" or "processing" up to the
      last attempt, exactly sixty fetches are made; the sixtieth answer
      decides the outcome, and if it is still in flight polling stops
      without any notification. */
  lemma {:induction false} SteadyUntilCeiling(replies: seq<Fetch>, done: nat)
    requires done < MaxAttempts <= |replies|
    requires forall i :: done <= i < MaxAttempts - 1 ==> replies[i].Data? && InFlight(replies[i].value.status)
    ensures var r := PollFrom(replies, done);
      r.fetches == MaxAttempts - done
      && (replies[MaxAttempts - 1].Data? ==> |r.records| == MaxAttempts - done && Last(r.records) == replies[MaxAttempts - 1].value)
      && (replies[MaxAttempts - 1].Data? && Terminal(replies[MaxAttempts - 1].value.status) ==>
            r.toasts == [StatusToast(replies[MaxAttempts - 1].value)])
      && (!(replies[MaxAttempts - 1].Data? && Terminal(replies[MaxAttempts - 1].value.status)) ==> r.toasts == [])
    decreases MaxAttempts - done
  {
    if done < MaxAttempts - 1 {
      SteadyUntilCeiling(replies, done + 1);
    }
  }

  /** The documented scenarios: fifty-nine "processing" answers and then
      "completed" end after sixty fetches with the completion notice;
      sixty "processing" answers end after sixty fetches silently. */
  lemma CompletesOnLastAttempt(replies: seq<Fetch>)
    requires |replies| == MaxAttempts
    requires forall i :: 0 <= i < MaxAttempts - 1 ==> replies[i].Data? && replies[i].value.status == Processing
    requires replies[MaxAttempts - 1].Data? && replies[MaxAttempts - 1].value.status in {Completed, Processing}
    ensures Poll(replies).fetches == MaxAttempts
    ensures replies[MaxAttempts - 1].value.status == Completed ==> Poll(replies).toasts == [CompletedToast]
    ensures replies[MaxAttempts - 1].value.status == Processing ==> Poll(replies).toasts == []
  {
    SteadyUntilCeiling(replies, 0);
  }
}
