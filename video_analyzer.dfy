/** The analyzer page's state and its three handlers, step by step: each
    state setter is an assignment, each awaited remote call takes its given
    outcome, and the self-rescheduling poll is a loop. */
module VideoAnalyzer {
  import opened Shared
  import opened Records
  import opened UploadPipeline
  import opened AnalysisPoller
  import opened ChatSession

  function Repeat<T>(x: T, n: nat): (s: seq<T>)
    ensures |s| == n && forall i :: 0 <= i < n ==> s[i] == x
  {
    seq(n, _ => x)
  }

  class Analyzer {
    var isUploading: bool
    var uploadProgress: int
    var currentAnalysis: Option<VideoAnalysis>
    var isChatLoading: bool
    /** Every notification shown, in order. */
    var toasts: seq<Toast>
    /** Every value handed to the progress setter, in order. */
    var progressLog: seq<int>
    /** Every remote call issued, in order, with its arguments. */
    var calls: seq<Call>
    /** The ids polling was started for, in order. */
    var pollsStarted: seq<string>

    constructor ()
      ensures !isUploading && uploadProgress == 0 && currentAnalysis == None && !isChatLoading
      ensures toasts == [] && progressLog == [] && calls == [] && pollsStarted == []
    {
      isUploading := false;
      uploadProgress := 0;
      currentAnalysis := None;
      isChatLoading := false;
      toasts := [];
      progressLog := [];
      calls := [];
      pollsStarted := [];
    }

    method SetProgress(value: int)
      modifies this`uploadProgress, this`progressLog
      ensures uploadProgress == value && progressLog == old(progressLog) + [value]
    {
      uploadProgress := value;
      progressLog := progressLog + [value];
    }

    method Notify(t: Toast)
      modifies this`toasts
      ensures toasts == old(toasts) + [t]
    {
      toasts := toasts + [t];
    }

    method Issue(c: Call)
      modifies this`calls
      ensures calls == old(calls) + [c]
    {
      calls := calls + [c];
    }

    /** `handleFileSelect`: raise the spinner, reset the progress, and probe
        the file's duration; the rest happens once the metadata is loaded. */
    method HandleFileSelect(file: VideoFile, probe: Probe, create: Reply<VideoAnalysis>, upload: Reply<string>,
                            setUrl: Ack, trigger: Ack)
      modifies this
      ensures var run := UploadPlan(file, probe, create, upload, setUrl, trigger);
        && isUploading == run.uploading
        && progressLog == old(progressLog) + run.progress
        && uploadProgress == Last(run.progress)
        && toasts == old(toasts) + run.toasts
        && calls == old(calls) + run.calls
        && currentAnalysis == (if run.created.Some? then run.created else old(currentAnalysis))
        && pollsStarted == old(pollsStarted) + (if run.polled.Some? then [run.polled.value] else [])
      ensures isChatLoading == old(isChatLoading)
    {
      isUploading := true;
      uploadProgress := 0;
      progressLog := progressLog + [0];
      match probe {
        case Stalled =>
        case Threw(e) =>
          toasts := toasts + [Toast("Error", CaughtText(e), true)];
          isUploading := false;
        case Loaded(duration) =>
          ghost var started := progressLog;
          OnMetadataLoaded(file, duration, create, upload, setUrl, trigger);
          assert progressLog == started + UploadPlan(file, probe, create, upload, setUrl, trigger).progress[1..];
      }
    }

    /** The `onloadedmetadata` callback: create the record and halt if that
        fails; otherwise make it current, report 20% and go on to the upload. */
    method OnMetadataLoaded(file: VideoFile, duration: int, create: Reply<VideoAnalysis>, upload: Reply<string>,
                            setUrl: Ack, trigger: Ack)
      modifies this`currentAnalysis, this`uploadProgress, this`progressLog, this`calls, this`toasts, this`isUploading, this`pollsStarted
      ensures var run := UploadPlan(file, Loaded(duration), create, upload, setUrl, trigger);
        && isUploading == (old(isUploading) && run.uploading)
        && progressLog == old(progressLog) + run.progress[1..]
        && uploadProgress == (if |run.progress| == 1 then old(uploadProgress) else Last(run.progress))
        && toasts == old(toasts) + run.toasts
        && calls == old(calls) + run.calls
        && currentAnalysis == (if run.created.Some? then run.created else old(currentAnalysis))
        && pollsStarted == old(pollsStarted) + (if run.polled.Some? then [run.polled.value] else [])
    {
      ghost var run := UploadPlan(file, Loaded(duration), create, upload, setUrl, trigger);
      var createCall := CreateRecord(file.name, file.size, duration);
      Issue(createCall);
      if !create.Data? {
        Notify(FailureToast(CreateStep, create, upload, setUrl, trigger));
        isUploading := false;
        assert run == UploadRun([0], [FailureToast(CreateStep, create, upload, setUrl, trigger)], [createCall], None, false, None);
        return;
      }
      currentAnalysis := Some(create.value);
      SetProgress(20);
      UploadStage(file, duration, create, upload, setUrl, trigger);
      assert run.progress[1..] == [20] + run.progress[2..];
      assert run.calls == [createCall] + run.calls[1..];
    }

    /** Upload the blob; halt if no URL comes back, otherwise report 60% and
        go on to store the URL. */
    method UploadStage(file: VideoFile, duration: int, create: Reply<VideoAnalysis>, upload: Reply<string>,
                       setUrl: Ack, trigger: Ack)
      requires create.Data?
      modifies this`uploadProgress, this`progressLog, this`calls, this`toasts, this`isUploading, this`pollsStarted
      ensures var run := UploadPlan(file, Loaded(duration), create, upload, setUrl, trigger);
        && !isUploading
        && progressLog == old(progressLog) + run.progress[2..]
        && uploadProgress == (if |run.progress| == 2 then old(uploadProgress) else Last(run.progress))
        && toasts == old(toasts) + run.toasts
        && calls == old(calls) + run.calls[1..]
        && pollsStarted == old(pollsStarted) + (if run.polled.Some? then [run.polled.value] else [])
    {
      ghost var run := UploadPlan(file, Loaded(duration), create, upload, setUrl, trigger);
      var uploadCall := UploadBlob(file, create.value.id);
      Issue(uploadCall);
      if !UrlReceived(upload) {
        Notify(FailureToast(UploadStep, create, upload, setUrl, trigger));
        isUploading := false;
        assert run.progress == [0, 20] && run.calls[1..] == [uploadCall];
        return;
      }
      SetProgress(60);
      UrlStage(file, duration, create, upload, setUrl, trigger);
      assert run.progress[2..] == [60] + run.progress[3..];
      assert run.calls[1..] == [uploadCall] + run.calls[2..];
    }

    /** Store the blob's URL on the record; halt if that is refused,
        otherwise report 80% and go on to trigger the analysis. */
    method UrlStage(file: VideoFile, duration: int, create: Reply<VideoAnalysis>, upload: Reply<string>,
                    setUrl: Ack, trigger: Ack)
      requires create.Data? && UrlReceived(upload)
      modifies this`uploadProgress, this`progressLog, this`calls, this`toasts, this`isUploading, this`pollsStarted
      ensures var run := UploadPlan(file, Loaded(duration), create, upload, setUrl, trigger);
        && !isUploading
        && progressLog == old(progressLog) + run.progress[3..]
        && uploadProgress == (if |run.progress| == 3 then old(uploadProgress) else Last(run.progress))
        && toasts == old(toasts) + run.toasts
        && calls == old(calls) + run.calls[2..]
        && pollsStarted == old(pollsStarted) + (if run.polled.Some? then [run.polled.value] else [])
    {
      ghost var run := UploadPlan(file, Loaded(duration), create, upload, setUrl, trigger);
      var urlCall := SetUrl(create.value.id, upload.value);
      Issue(urlCall);
      if setUrl.Refused? {
        Notify(FailureToast(UrlStep, create, upload, setUrl, trigger));
        isUploading := false;
        assert run.progress == [0, 20, 60] && run.calls[2..] == [urlCall];
        return;
      }
      SetProgress(80);
      TriggerStage(file, duration, create, upload, setUrl, trigger);
      assert run.progress[3..] == [80] + run.progress[4..];
      assert run.calls[2..] == [urlCall] + run.calls[3..];
    }

    /** Trigger the analysis; halt if that is refused, otherwise report 100%,
        lower the spinner, announce the upload and start polling the record. */
    method TriggerStage(file: VideoFile, duration: int, create: Reply<VideoAnalysis>, upload: Reply<string>,
                        setUrl: Ack, trigger: Ack)
      requires create.Data? && UrlReceived(upload) && setUrl.Done?
      modifies this`uploadProgress, this`progressLog, this`calls, this`toasts, this`isUploading, this`pollsStarted
      ensures var run := UploadPlan(file, Loaded(duration), create, upload, setUrl, trigger);
        && !isUploading
        && progressLog == old(progressLog) + run.progress[4..]
        && uploadProgress == (if |run.progress| == 4 then old(uploadProgress) else Last(run.progress))
        && toasts == old(toasts) + run.toasts
        && calls == old(calls) + run.calls[3..]
        && pollsStarted == old(pollsStarted) + (if run.polled.Some? then [run.polled.value] else [])
    {
      ghost var run := UploadPlan(file, Loaded(duration), create, upload, setUrl, trigger);
      var triggerCall := TriggerAnalysis(create.value.id, file.name, file.size);
      Issue(triggerCall);
      if trigger.Refused? {
        Notify(FailureToast(TriggerStep, create, upload, setUrl, trigger));
        isUploading := false;
        assert run.progress == [0, 20, 60, 80] && run.calls[3..] == [triggerCall];
        return;
      }
      SetProgress(100);
      isUploading := false;
      Notify(UploadCompleteToast);
      pollsStarted := pollsStarted + [create.value.id];
      assert run.progress == Milestones && run.calls[3..] == [triggerCall];
    }

    /** `pollAnalysis`: start the `poll` closure with no attempt made yet. */
    method PollAnalysis(videoId: string, replies: seq<Fetch>)
      modifies this`calls, this`currentAnalysis, this`toasts
      ensures var run := Poll(replies);
        && calls == old(calls) + Repeat(FetchRecord(videoId), run.fetches)
        && currentAnalysis == (if run.records == [] then old(currentAnalysis) else Some(Last(run.records)))
        && toasts == old(toasts) + run.toasts
    {
      PollAttempt(videoId, replies, 0);
    }

    /** One run of the `poll` closure after `done` attempts: fetch, store the
        record, notify on a terminal status, and reschedule itself while the
        status is in flight and fewer than sixty attempts were made. */
    method PollAttempt(videoId: string, replies: seq<Fetch>, done: nat)
      requires done < MaxAttempts
      modifies this`calls, this`currentAnalysis, this`toasts
      decreases MaxAttempts - done
      ensures var run := PollFrom(replies, done);
        && calls == old(calls) + Repeat(FetchRecord(videoId), run.fetches)
        && currentAnalysis == (if run.records == [] then old(currentAnalysis) else Some(Last(run.records)))
        && toasts == old(toasts) + run.toasts
    {
      var attempts := done + 1;
      Issue(FetchRecord(videoId));
      if done >= |replies| {
        // the request is issued but never settles
        return;
      }
      match replies[done] {
        case Error(_) =>
        case NoData =>
        case Data(data) =>
          currentAnalysis := Some(data);
          if data.status == Completed {
            Notify(CompletedToast);
          } else if data.status == Failed {
            Notify(Toast("Analysis failed", OptionOrElse(data.errorMessage, AnalysisFailureFallback), true));
          } else if attempts < MaxAttempts && (data.status == Processing || data.status == Uploading) {
            ghost var rest := PollFrom(replies, attempts);
            PollAttempt(videoId, replies, attempts);
            assert Repeat(FetchRecord(videoId), 1 + rest.fetches) == [FetchRecord(videoId)] + Repeat(FetchRecord(videoId), rest.fetches);
            assert rest.records != [] ==> Last([data] + rest.records) == Last(rest.records);
          }
      }
    }

    /** `handleSendMessage`: append the user's entry at once, ask the chat
        service, and on an answer append it, persist the merged history and
        store it; `isChatLoading` is raised for the exchange and lowered
        again whatever happens. */
    method HandleSendMessage(message: string, sentAt: string, repliedAt: string, reply: SendOutcome, persist: PersistOutcome)
      modifies this
      ensures var run := Turn(old(currentAnalysis), message, sentAt, repliedAt, reply, persist);
        && currentAnalysis == run.current
        && calls == old(calls) + run.calls
        && toasts == old(toasts) + run.toasts
      ensures isChatLoading == if Chattable(old(currentAnalysis)) then false else old(isChatLoading)
      ensures isUploading == old(isUploading) && uploadProgress == old(uploadProgress)
      ensures progressLog == old(progressLog) && pollsStarted == old(pollsStarted)
    {
      if currentAnalysis.None? || currentAnalysis.value.analysisData.None? {
        return;
      }
      var analysis := currentAnalysis.value;
      isChatLoading := true;

      var updatedHistory := analysis.chatHistory + [ChatMessage(User, message, sentAt)];
      currentAnalysis := Some(analysis.(chatHistory := updatedHistory));

      Issue(SendChat(analysis.id, message, analysis.analysisData.value, updatedHistory));
      match reply {
        case SendThrew(e) =>
          Notify(Toast("Error", CaughtText(e), true));
        case ApiError(m) =>
          Notify(Toast("Error", OrElse(m, SendFallback), true));
          isChatLoading := false;
          return;
        case Answer(response) =>
          if response == [] {
            Notify(Toast("Error", SendFallback, true));
            isChatLoading := false;
            return;
          }
          var finalHistory := updatedHistory + [ChatMessage(Assistant, response, repliedAt)];
          Issue(PersistHistory(analysis.id, finalHistory));
          match persist {
            case PersistThrew(e) =>
              Notify(Toast("Error", CaughtText(e), true));
            case Settled =>
              currentAnalysis := Some(analysis.(chatHistory := finalHistory));
          }
      }
      isChatLoading := false;
    }
  }
}
