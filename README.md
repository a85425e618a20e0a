# AI video analyzer: upload, polling and chat orchestration

This project models the client-side orchestration of the AI video analyzer page in Dafny. The page covers one video's life:

- **Upload.** The page probes the file's duration and creates an analysis record. It uploads the blob, stores its URL on the record and triggers the remote analysis. Progress moves through 0, 20, 60, 80 and 100. The first failing step halts the run with one destructive toast.
- **Polling.** The page fetches the record every five seconds. It keeps polling only while the record is `processing` or `uploading`. It stops on `completed` or `failed`, on any other status, on any fetch that brings no record, or after the sixtieth attempt.
- **Chat.** A turn appends the user's entry at once. It asks the chat service, appends the reply, and persists the merged history.
- **Panel inputs.** The upload drop zone validates files and forwards only the first one. The chat panel trims its input, gates sending on the trimmed text and the loading flag, reacts to Enter, and sends suggested questions.

## How it is modelled

- **Remote calls.** Every remote call (`createVideoAnalysis`, `uploadVideoToStorage`, `updateVideoAnalysisUrl`, `triggerVideoAnalysis`, `getVideoAnalysis`, `sendChatMessage`, `updateChatHistory`) is a given outcome.
  - `Reply<T>` is a `{ data, error }` answer. It covers `createVideoAnalysis`, `uploadVideoToStorage` and, as `AnalysisPoller.Fetch`, `getVideoAnalysis`.
  - `Ack` is an `{ error }` answer. It covers `updateVideoAnalysisUrl` and `triggerVideoAnalysis`.
  - `ChatSession.SendOutcome` is `sendChatMessage`'s `{ response, error }` answer or its exception.
  - `ChatSession.PersistOutcome` says whether `updateChatHistory` settles or throws.
  - The calls a handler issues are logged in order, with their arguments, in the `calls` field of type `Call`.
  - Toasts are logged in `toasts`, and the values passed to `setUploadProgress` in `progressLog`.
- **Spec functions and the classes proved against them.** Each handler has a spec function:
  - `UploadPipeline.UploadPlan` for the upload run;
  - `AnalysisPoller.PollFrom` for polling;
  - `ChatSession.Turn` for a chat turn.

  Each spec function carries the properties the page promises, and more are proved as lemmas. The page and its panels are classes (`VideoAnalyzer.Analyzer`, `UploadZone.Zone`, `ChatBox.Box`). Their handlers update fields step by step, and each handler's `ensures` ties its final state to its spec function.
- **The metadata probe.** The probe is a given `Probe`:
  - `Loaded(duration)` carries the floored duration;
  - `Stalled` means the `loadedmetadata` event never fires;
  - `Threw` means setting up the probe throws, which the page's `catch` reports.
- **Polling.** The `poll` closure reschedules itself through `setTimeout`. `Analyzer.PollAttempt` is that closure as a recursive method. Its `done` parameter is the closure's `attempts` counter before the increment.
  - The fetch answers are a sequence.
  - A fetch past the end of that sequence is issued and never settles.
- **JavaScript details modelled exactly.**
  - `s || fallback` falls back on the empty string, so an empty error message or an empty upload URL counts as missing.
  - `String.prototype.trim` removes exactly the ECMAScript white-space and line-terminator code points.
  - `padStart(2, '0')` and the decimal rendering of a non-negative integer are written out.

Some of the code's behaviour may not be what was intended. The model follows the code:

- **A fetch error while polling ends polling.** The code returns without rescheduling, so one failed fetch is not retried.
- **A failed metadata read is never reported.** The page sets no error handler on the probe element. The run stays at progress 0 with `isUploading` raised, and the user is not told that the file could not be read.
- **Polling that reaches the sixtieth attempt stops with no notification.**
- **The persist call's result is ignored.** The merged history becomes current unless `updateChatHistory` throws.

## Model

| member | source | states |
|---|---|---|
| Shared.OrElse | src/pages/AIVideoAnalyzer.tsx:93 | `s \|\| fallback` is `s` or the fallback. It is the fallback exactly when `s` is empty or equals the fallback. |
| Duration.Decimal | src/pages/AIVideoAnalyzer.tsx:244 | The minutes' decimal text has at least one digit, only digits and no leading zero. It has a single digit exactly below 10. |
| Duration.ValueOfDecimal | src/pages/AIVideoAnalyzer.tsx:244 | Reading the decimal text of `n` back gives `n`. |
| Duration.PadStart | src/pages/AIVideoAnalyzer.tsx:244 | `padStart` gives length max(len, width), keeps the text as a suffix, and fills the rest with the fill character. |
| Duration.SecondsField | src/pages/AIVideoAnalyzer.tsx:243-244 | For seconds below 60, the seconds field is exactly two digits and reads back as the seconds. |
| Duration.FormatDuration | src/pages/AIVideoAnalyzer.tsx:241-245 | The output is `m:ss`: the minutes in decimal equal `seconds / 60`, then a colon, then two digits equal to `seconds % 60`. |
| Duration.ParseFormatRoundTrip | src/pages/AIVideoAnalyzer.tsx:241-245 | Parsing `m:ss` gives back the seconds, since mins·60 + ss = seconds. |
| Duration.FormatDurationInjective | src/pages/AIVideoAnalyzer.tsx:241-245 | Different durations are shown as different text. |
| UploadZone.Rejection | src/components/video/VideoUploadZone.tsx:22-38 | A file is accepted iff its type is on the whitelist and its size is at most 500 MiB. A wrong type gets the type error even when the size is also too big. |
| UploadZone.SizeLimitBoundary | src/components/video/VideoUploadZone.tsx:24-34 | 524288000 bytes is accepted. 524288001 bytes gets the size error. |
| UploadZone.Zone.constructor | src/components/video/VideoUploadZone.tsx:19-20 | The zone starts not dragging, with no error and no file forwarded. |
| UploadZone.Zone.ValidateFile | src/components/video/VideoUploadZone.tsx:22-38 | Returns true iff the file is acceptable. Sets the error to the rejection, and clears it on success. |
| UploadZone.Zone.HandleDragOver | src/components/video/VideoUploadZone.tsx:40-43 | Dragover sets `isDragging`. |
| UploadZone.Zone.HandleDragLeave | src/components/video/VideoUploadZone.tsx:45-48 | Dragleave clears `isDragging`. |
| UploadZone.Zone.SelectFirst | src/components/video/VideoUploadZone.tsx:55-61 | Only the first file is validated. It is forwarded iff it passes. An empty list changes nothing. |
| UploadZone.Zone.HandleDrop | src/components/video/VideoUploadZone.tsx:50-64 | Drop clears `isDragging`. It then forwards the first dropped file iff it validates. |
| UploadZone.Zone.HandleFileInput | src/components/video/VideoUploadZone.tsx:66-77 | An absent or empty file list changes nothing. Otherwise the first file is forwarded iff it validates. |
| UploadZone.Zone.View | src/components/video/VideoUploadZone.tsx:79-151 | The progress panel with the given percentage is shown iff `isUploading`. Otherwise the drop target shows the drag highlight and the current error. |
| ChatBox.TrimStart | src/components/video/ChatInterface.tsx:38-39 | Gives a suffix of the input. What it cuts is all white space, and the result does not start with white space. |
| ChatBox.TrimEnd | src/components/video/ChatInterface.tsx:38-39 | Gives a prefix of the input. What it cuts is all white space, and the result does not end with white space. |
| ChatBox.TrimIsInnerRun | src/components/video/ChatInterface.tsx:38-39 | `trim()` gives a contiguous run of the input with white space only on either side, and no white space at either end. |
| ChatBox.TrimEmptyIffBlank | src/components/video/ChatInterface.tsx:38 | `input.trim()` is empty iff the input is all white space. |
| ChatBox.TrimIdempotent | src/components/video/ChatInterface.tsx:38-39 | Trimming the trimmed text changes nothing. |
| ChatBox.SendButtonMatchesGuard | src/components/video/ChatInterface.tsx:155 | The send button is enabled exactly when `handleSend`'s guard passes, which is exactly when the input is not all white space and nothing is loading. |
| ChatBox.CodeUnits | src/components/video/ChatInterface.tsx:146-150 | A string's JavaScript length in UTF-16 code units is between its number of characters and twice that. |
| ChatBox.CapLength | src/components/video/ChatInterface.tsx:146 | `maxLength` keeps a prefix of the value that fits in the limit in code units. A value that fits is kept whole. Otherwise the prefix is the longest one that fits, so one more character would exceed the limit. |
| ChatBox.BasicPlaneCodeUnits | src/components/video/ChatInterface.tsx:150 | For text without characters beyond the Basic Multilingual Plane, the length in code units equals the number of characters. |
| ChatBox.CapOfBasicPlane | src/components/video/ChatInterface.tsx:146 | For such text the cap keeps exactly the first 500 characters. |
| ChatBox.OfferedQuestions | src/components/video/ChatInterface.tsx:74-96 | The four suggested questions are offered iff the message list is empty. |
| ChatBox.Box.constructor | src/components/video/ChatInterface.tsx:27 | The input starts empty. |
| ChatBox.Box.Edit | src/components/video/ChatInterface.tsx:139-148 | A typed value is kept as its longest prefix that fits in 500 UTF-16 code units. While loading, the disabled textarea takes nothing. |
| ChatBox.Box.HandleSend | src/components/video/ChatInterface.tsx:37-43 | When the guard holds, the input is cleared first and then the trimmed text is sent. Otherwise nothing changes. The input stays within 500 UTF-16 code units. |
| ChatBox.Box.HandleKeyPress | src/components/video/ChatInterface.tsx:45-50 | The default is prevented iff the key is Enter without Shift. Only then does a send happen, and only when the guard holds. |
| ChatBox.Box.HandleSuggestedQuestion | src/components/video/ChatInterface.tsx:52-56 | The question is shown, sent verbatim whatever `isLoading` is, and the input is empty afterwards. |
| UploadPipeline.FailureToast | src/pages/AIVideoAnalyzer.tsx:90-145 | Every failing step's notification is destructive. |
| UploadPipeline.UploadPlan | src/pages/AIVideoAnalyzer.tsx:72-167 | Progress is always a prefix of 0, 20, 60, 80, 100. Calls follow the step order, and every call after creation uses the created id. On every run, the upload call carries the file, the set-URL call the returned URL, and the trigger the file's name and size. A stalled probe leaves the spinner up and reports nothing. The record becomes current iff creation succeeds. Polling starts iff all four steps succeed, with the created id, after exactly the four calls. A failing step leaves as many progress values as calls, and exactly one destructive toast. |
| UploadPipeline.ProgressMonotone | src/pages/AIVideoAnalyzer.tsx:101-147 | Progress values never decrease. The last one is 100 iff polling starts. |
| UploadPipeline.StageErrorText | src/pages/AIVideoAnalyzer.tsx:90-113 | A failed create or upload shows the collaborator's non-empty message, and the fixed fallback text otherwise. |
| AnalysisPoller.StatusToast | src/pages/AIVideoAnalyzer.tsx:45-61 | The terminal notification is destructive iff the status is `failed`. Its text is then `error_message`, or the fallback when that is absent or empty. |
| AnalysisPoller.PollFrom | src/pages/AIVideoAnalyzer.tsx:34-69 | Polling makes at least one and at most 60 − done fetches. Every record received is the answer at its attempt. Polling went on only past uploading or processing records. A toast appears at most once, exactly when the last record is terminal. A fetch without a record ends polling. One more fetch follows a record only when that record is in flight and below the ceiling. An in-flight record ends polling only at the ceiling. |
| AnalysisPoller.Poll | src/pages/AIVideoAnalyzer.tsx:30-70 | A whole polling run makes at most 60 fetches. |
| AnalysisPoller.SteadyUntilCeiling | src/pages/AIVideoAnalyzer.tsx:31-65 | When answers stay in flight until the last attempt, exactly the remaining attempts are fetched. The sixtieth answer alone decides the notification. |
| AnalysisPoller.CompletesOnLastAttempt | src/pages/AIVideoAnalyzer.tsx:31-65 | 59 "processing" answers and then "completed" give 60 fetches and the completion toast. 60 "processing" answers give 60 fetches and no toast. |
| ChatSession.Turn | src/pages/AIVideoAnalyzer.tsx:169-227 | Without a record that has its analysis, nothing happens. Otherwise the old history plus the user entry is a prefix of the new history, which grows by at most two. The first call sends that history. A complete turn appends user and reply and persists exactly that history. A failed exchange keeps only the user entry, persists nothing and shows one destructive toast, whose text is the error message, the fallback or the caught error's text. When the reply arrives but persisting throws, the history keeps only the user entry, the full history was sent to be persisted, and the caught error's text is shown. |
| ChatSession.SessionAppendOnly | src/pages/AIVideoAnalyzer.tsx:180-217 | Over any sequence of turns the old history stays a prefix. The history grows by one per turn plus one per completed turn. No other field of the record changes. |
| ChatSession.SessionIdleWithoutAnalysis | src/pages/AIVideoAnalyzer.tsx:170 | Without a record that has its analysis, any sequence of turns leaves the current record unchanged. |
| VideoAnalyzer.Analyzer.constructor | src/pages/AIVideoAnalyzer.tsx:24-27 | The page starts idle: not uploading, progress 0, no record, chat not loading. |
| VideoAnalyzer.Analyzer.HandleFileSelect | src/pages/AIVideoAnalyzer.tsx:72-167 | The new `isUploading`, progress log, current progress, toasts, calls, current record and started polls are exactly those of `UploadPlan`. |
| VideoAnalyzer.Analyzer.OnMetadataLoaded | src/pages/AIVideoAnalyzer.tsx:80-101 | The callback's effect on every field is that of `UploadPlan` for a loaded probe, after the initial 0. |
| VideoAnalyzer.Analyzer.UploadStage | src/pages/AIVideoAnalyzer.tsx:103-115 | From the upload step on, the fields change as the rest of `UploadPlan` says. |
| VideoAnalyzer.Analyzer.UrlStage | src/pages/AIVideoAnalyzer.tsx:117-129 | From the URL step on, the fields change as the rest of `UploadPlan` says. |
| VideoAnalyzer.Analyzer.TriggerStage | src/pages/AIVideoAnalyzer.tsx:131-155 | The trigger step and, on success, 100%, the upload toast and the start of polling, as `UploadPlan` says. |
| VideoAnalyzer.Analyzer.PollAnalysis | src/pages/AIVideoAnalyzer.tsx:30-70 | The fetch calls, the current record (the last one received) and the toasts are those of `Poll`. |
| VideoAnalyzer.Analyzer.PollAttempt | src/pages/AIVideoAnalyzer.tsx:34-67 | One run of the `poll` closure after `done` attempts has the effect of `PollFrom(replies, done)`. |
| VideoAnalyzer.Analyzer.HandleSendMessage | src/pages/AIVideoAnalyzer.tsx:169-227 | The current record, calls and toasts are those of `Turn`. `isChatLoading` is false afterwards when a turn ran, and unchanged otherwise. |

## Left out

- The remote calls' own behaviour. `src/lib/videoAnalysisApi` is not part of this model; its outcomes are parameters.
- Exceptions thrown by a remote call inside the `loadedmetadata` callback or inside `poll`. Nothing catches them. Such a run simply ends, which is the same as a request that never settles.
- The five-second `setTimeout` delay and all wall-clock timing. Each reschedule is one recursive call.
- Async interleaving. The model does not cover a poll update racing a chat turn, where the chat turn's stale `currentAnalysis` closure overwrites the polled record, or two uploads at once. Each handler runs to completion.
- `new Date().toISOString()`. The two chat timestamps are given strings.
- `Math.floor` of the probed duration. The duration arrives already floored, as an integer.
- Duration.FormatDuration: takes whole seconds ≥ 0 only. Negative and fractional values, and `Number.prototype.toString`'s exponent form at 10^21 and above, are not modelled.
- `formatFileSize`, which uses floating-point logarithms.
- `ChatInterface`'s `formatTime` and its scroll effect.
- The rest of the page's JSX: which panels are shown, badges and icons. Note that the page shows the upload zone only while there is no current record. So once creation succeeds, the zone and its progress bar are unmounted; the model does not capture this.
- `VideoPlayer`, `Sidebar`, `TopBar` and `MainApp`, which are layout and media-element plumbing.
- ChatBox.Box.Edit: models `maxLength` as keeping the longest prefix of the new value that fits in 500 UTF-16 code units. The browser's caret-position-dependent insertion is not modelled, nor is the unusual case of a lone surrogate in the value.
