/** The records the analyzer page works on, and the remote calls it issues. */
module Records {
  import opened Shared

  /** The status of an analysis record as the remote service reports it.
      Any other string the store may hold is `Unrecognised`. */
  datatype Status = Uploading | Processing | Completed | Failed | Unrecognised(name: string)

  datatype Role = User | Assistant

  /** One chat entry; the timestamp is the ISO-8601 string taken from the
      clock when the entry is made, passed in as a value. */
  datatype ChatMessage = ChatMessage(role: Role, message: string, timestamp: string)

  /** The analysis result, opaque to the page: it is only passed on to the
      chat service. */
  datatype Payload = Payload(json: string)

  /** One analysis record (the `VideoAnalysis` row). */
  datatype VideoAnalysis = VideoAnalysis(
    id: string,
    fileName: string,
    fileSize: nat,
    duration: int,
    videoUrl: Option<string>,
    status: Status,
    analysisData: Option<Payload>,
    errorMessage: Option<string>,
    chatHistory: seq<ChatMessage>)

  /** The part of a browser `File` the page looks at. */
  datatype VideoFile = VideoFile(name: string, mimeType: string, size: nat)

  /** A `{ data, error }` answer from a collaborator: an error object with
      its message, no error and no data, or data. */
  datatype Reply<T> = Data(value: T) | NoData | Error(message: string)

  /** A `{ error }` answer from a collaborator that returns no data. */
  datatype Ack = Done | Refused(message: string)

  /** A remote call the page issues, with the arguments it passes. */
  datatype Call =
    | CreateRecord(fileName: string, fileSize: nat, duration: int)
    | UploadBlob(file: VideoFile, videoId: string)
    | SetUrl(videoId: string, url: string)
    | TriggerAnalysis(videoId: string, fileName: string, fileSize: nat)
    | FetchRecord(videoId: string)
    | SendChat(videoId: string, message: string, payload: Payload, history: seq<ChatMessage>)
    | PersistHistory(videoId: string, history: seq<ChatMessage>)
}
