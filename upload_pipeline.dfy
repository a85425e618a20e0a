/** What one run of `handleFileSelect` does: the four remote steps (create
    the record, upload the blob, store its URL, trigger the analysis), the
    progress values it sets, the notifications it shows, and whether it
    starts polling. The outcome of every remote call is given. */
module UploadPipeline {
  import opened Shared
  import opened Records

  /** The progress values in the order the page sets them: start, record
      created, blob stored, URL stored, analysis triggered. */
  const Milestones: seq<int> := [0, 20, 60, 80, 100]

  /** The local metadata probe: it settles with the floored duration, never
      settles (the page registers no error handler), or throws while being
      set up. */
  datatype Probe = Loaded(duration: int) | Stalled | Threw(error: Raised)

  datatype Step = CreateStep | UploadStep | UrlStep | TriggerStep

  const Steps: seq<Step> := [CreateStep, UploadStep, UrlStep, TriggerStep]

  /** The step a remote call belongs to, if it is one of the four. */
  function StepOf(c: Call): Option<Step> {
    match c
    case CreateRecord(_, _, _) => Some(CreateStep)
    case UploadBlob(_, _) => Some(UploadStep)
    case SetUrl(_, _) => Some(UrlStep)
    case TriggerAnalysis(_, _, _) => Some(TriggerStep)
    case _ => None
  }

  /** How many remote calls the run has issued when `s` is the step that fails. */
  function CallsUpTo(s: Step): (n: nat)
    ensures 1 <= n <= |Steps| && Steps[n - 1] == s
  {
    match s
    case CreateStep => 1
    case UploadStep => 2
    case UrlStep => 3
    case TriggerStep => 4
  }

  /** The upload counts as done only with a non-empty URL (`!url` is true
      for the empty string). */
  predicate UrlReceived(upload: Reply<string>) {
    upload.Data? && upload.value != []
  }

  /** The first step whose outcome the page treats as a failure, if any. */
  function FirstFailure(create: Reply<VideoAnalysis>, upload: Reply<string>, setUrl: Ack, trigger: Ack): Option<Step> {
    if !create.Data? then Some(CreateStep)
    else if !UrlReceived(upload) then Some(UploadStep)
    else if setUrl.Refused? then Some(UrlStep)
    else if trigger.Refused? then Some(TriggerStep)
    else None
  }

  const CreateFallback: string := "Failed to create video analysis"
  const UploadFallback: string := "Failed to upload video"
  const UploadCompleteToast: Toast :=
    Toast("Upload complete", "Your video is being analyzed. This may take a few minutes.", false)

  /** `error?.message || fallback` for a `{ data, error }` answer. */
  function ReplyErrorText<T>(r: Reply<T>, fallback: string): string {
    if r.Error? then OrElse(r.message, fallback) else fallback
  }

  /** The destructive notification shown when `step` fails. */
  function FailureToast(step: Step, create: Reply<VideoAnalysis>, upload: Reply<string>, setUrl: Ack, trigger: Ack): (t: Toast)
    ensures t.destructive
  {
    match step
    case CreateStep => Toast("Error", ReplyErrorText(create, CreateFallback), true)
    case UploadStep => Toast("Upload failed", ReplyErrorText(upload, UploadFallback), true)
    case UrlStep => Toast("Error", if setUrl.Refused? then setUrl.message else [], true)
    case TriggerStep => Toast("Analysis failed to start", if trigger.Refused? then trigger.message else [], true)
  }

  /** The observable effect of one run: progress values set, notifications
      shown, remote calls issued (in order), the record stored as current
      (if any), the final `isUploading`, and the id polling is started with. */
  datatype UploadRun = UploadRun(
    progress: seq<int>,
    toasts: seq<Toast>,
    calls: seq<Call>,
    created: Option<VideoAnalysis>,
    uploading: bool,
    polled: Option<string>)

  function UploadPlan(file: VideoFile, probe: Probe, create: Reply<VideoAnalysis>, upload: Reply<string>, setUrl: Ack, trigger: Ack): (r: UploadRun)
    // progress only walks up the ladder, and stays at the last value reached
    ensures 1 <= |r.progress| <= |Milestones| && r.progress == Milestones[..|r.progress|]
    // the remote steps run in order, each only after the one before succeeded
    ensures |r.calls| <= |Steps| && forall i :: 0 <= i < |r.calls| ==> StepOf(r.calls[i]) == Some(Steps[i])
    ensures |r.calls| >= 2 ==> create.Data? && forall i :: 1 <= i < |r.calls| ==> !r.calls[i].CreateRecord? && r.calls[i].videoId == create.value.id
    // every step is called with the arguments the page passes it
    ensures |r.calls| >= 2 ==> r.calls[1] == UploadBlob(file, create.value.id)
    ensures |r.calls| >= 3 ==> upload.Data? && r.calls[2] == SetUrl(create.value.id, upload.value)
    ensures |r.calls| >= 4 ==> r.calls[3] == TriggerAnalysis(create.value.id, file.name, file.size)
    // a probe that never settles leaves the spinner up and reports nothing
    ensures probe.Stalled? ==> r == UploadRun([0], [], [], None, true, None)
    ensures probe.Threw? ==> r == UploadRun([0], [Toast("Error", CaughtText(probe.error), true)], [], None, false, None)
    ensures probe.Loaded? ==>
      !r.uploading && |r.toasts| == 1 && |r.calls| >= 1 && r.calls[0] == CreateRecord(file.name, file.size, probe.duration)
    // the record becomes current exactly when creation succeeded
    ensures r.created.Some? <==> probe.Loaded? && create.Data?
    ensures r.created.Some? ==> r.created.value == create.value
    // polling starts exactly when every step succeeded, with the created id
    ensures r.polled.Some? <==> probe.Loaded? && FirstFailure(create, upload, setUrl, trigger).None?
    ensures r.polled.Some? ==>
      r.progress == Milestones && r.polled.value == create.value.id && r.toasts == [UploadCompleteToast]
      && r.calls == [CreateRecord(file.name, file.size, probe.duration), UploadBlob(file, create.value.id),
                     SetUrl(create.value.id, upload.value), TriggerAnalysis(create.value.id, file.name, file.size)]
    // a failing step halts the run with exactly one destructive notification
    ensures probe.Loaded? && FirstFailure(create, upload, setUrl, trigger).Some? ==>
      var step := FirstFailure(create, upload, setUrl, trigger).value;
      |r.progress| == CallsUpTo(step) && |r.calls| == CallsUpTo(step)
      && r.toasts == [FailureToast(step, create, upload, setUrl, trigger)] && r.toasts[0].destructive
  {
    match probe
    case Stalled => UploadRun([0], [], [], None, true, None)
    case Threw(e) => UploadRun([0], [Toast("Error", CaughtText(e), true)], [], None, false, None)
    case Loaded(duration) =>
      var failure := FirstFailure(create, upload, setUrl, trigger);
      var notice := if failure.Some? then FailureToast(failure.value, create, upload, setUrl, trigger) else UploadCompleteToast;
      var createCall := CreateRecord(file.name, file.size, duration);
      if !create.Data? then UploadRun([0], [notice], [createCall], None, false, None)
      else
        var id := create.value.id;
        var uploadCall := UploadBlob(file, id);
        if !UrlReceived(upload) then
          UploadRun([0, 20], [notice], [createCall, uploadCall], Some(create.value), false, None)
        else
          var urlCall := SetUrl(id, upload.value);
          if setUrl.Refused? then
            UploadRun([0, 20, 60], [notice], [createCall, uploadCall, urlCall], Some(create.value), false, None)
          else
            var triggerCall := TriggerAnalysis(id, file.name, file.size);
            var calls := [createCall, uploadCall, urlCall, triggerCall];
            if trigger.Refused? then
              UploadRun([0, 20, 60, 80], [notice], calls, Some(create.value), false, None)
            else
              UploadRun(Milestones, [notice], calls, Some(create.value), false, Some(id))
  }

  /** The progress values a run sets never decrease, and they reach 100
      exactly when the run goes on to poll. */
  lemma ProgressMonotone(file: VideoFile, probe: Probe, create: Reply<VideoAnalysis>, upload: Reply<string>, setUrl: Ack, trigger: Ack)
    ensures var p := UploadPlan(file, probe, create, upload, setUrl, trigger).progress;
      forall i, j :: 0 <= i <= j < |p| ==> p[i] <= p[j]
    ensures var r := UploadPlan(file, probe, create, upload, setUrl, trigger);
      Last(r.progress) == 100 <==> r.polled.Some?
  {
    var r := UploadPlan(file, probe, create, upload, setUrl, trigger);
    forall i, j | 0 <= i <= j < |r.progress| ensures r.progress[i] <= r.progress[j] {
      assert r.progress[i] == Milestones[i] && r.progress[j] == Milestones[j];
    }
  }

  /** A failed creation or upload reports the collaborator's message when it
      has a non-empty one, and the fixed fallback text otherwise. */
  lemma StageErrorText(file: VideoFile, duration: int, create: Reply<VideoAnalysis>, upload: Reply<string>, setUrl: Ack, trigger: Ack)
    ensures var r := UploadPlan(file, Loaded(duration), create, upload, setUrl, trigger);
      (create.Error? && create.message != [] ==> r.toasts == [Toast("Error", create.message, true)])
      && (create.NoData? || create == Error([]) ==> r.toasts == [Toast("Error", CreateFallback, true)])
    ensures var r := UploadPlan(file, Loaded(duration), create, upload, setUrl, trigger);
      create.Data? ==>
        (upload.Error? && upload.message != [] ==> r.toasts == [Toast("Upload failed", upload.message, true)])
        && (upload.NoData? || upload == Error([]) || upload == Data([]) ==> r.toasts == [Toast("Upload failed", UploadFallback, true)])
  {
  }
}
