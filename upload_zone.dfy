/** The upload drop zone: file validation, drag highlighting, forwarding the
    first chosen file, and the switch between the drop zone and the progress
    view. */
module UploadZone {
  import opened Shared
  import opened Records

  const ValidTypes: seq<string> := ["video/mp4", "video/quicktime", "video/x-msvideo"]

  /** 500 MiB. */
  const MaxSize: nat := 500 * 1024 * 1024

  const InvalidTypeMessage: string := "Invalid file type. Please upload MP4, MOV, or AVI files only."
  const TooLargeMessage: string := "File size exceeds 500MB limit."

  /** The error `validateFile` records for a file, or `None` when it accepts
      it. The type is checked before the size, so a file wrong on both
      counts gets the type error. */
  function Rejection(file: VideoFile): (r: Option<string>)
    ensures r.None? <==> file.mimeType in ValidTypes && file.size <= MaxSize
    ensures file.mimeType !in ValidTypes ==> r == Some(InvalidTypeMessage)
    ensures file.mimeType in ValidTypes && file.size > MaxSize ==> r == Some(TooLargeMessage)
  {
    if file.mimeType !in ValidTypes then Some(InvalidTypeMessage)
    else if file.size > MaxSize then Some(TooLargeMessage)
    else None
  }

  /** The size limit is inclusive: exactly 500 MiB passes, one byte more does not. */
  lemma SizeLimitBoundary(name: string, mimeType: string)
    requires mimeType in ValidTypes
    ensures Rejection(VideoFile(name, mimeType, 524288000)) == None
    ensures Rejection(VideoFile(name, mimeType, 524288001)) == Some(TooLargeMessage)
  {
  }

  /** What the component shows. */
  datatype ZoneView =
    | ProgressPanel(percent: int)
    | DropTarget(highlighted: bool, errorShown: Option<string>)

  class Zone {
    var isDragging: bool
    var error: Option<string>
    /** The files handed to `onFileSelect`, in order. */
    var selected: seq<VideoFile>

    constructor ()
      ensures !isDragging && error == None && selected == []
    {
      isDragging := false;
      error := None;
      selected := [];
    }

    /** `validateFile`: records the error (or clears it) and says whether the
        file is acceptable. */
    method ValidateFile(file: VideoFile) returns (ok: bool)
      modifies this`error
      ensures ok <==> Rejection(file) == None
      ensures error == Rejection(file)
    {
      if file.mimeType !in ValidTypes {
        error := Some(InvalidTypeMessage);
        return false;
      }
      if file.size > MaxSize {
        error := Some(TooLargeMessage);
        return false;
      }
      error := None;
      return true;
    }

    method HandleDragOver()
      modifies this`isDragging
      ensures isDragging
    {
      isDragging := true;
    }

    method HandleDragLeave()
      modifies this`isDragging
      ensures !isDragging
    {
      isDragging := false;
    }

    /** Validates the first file of a non-empty choice and forwards it when it
        passes; later files are ignored. */
    method SelectFirst(files: seq<VideoFile>)
      modifies this`error, this`selected
      ensures files == [] ==> error == old(error) && selected == old(selected)
      ensures files != [] ==> error == Rejection(files[0])
      ensures files != [] && Rejection(files[0]) == None ==> selected == old(selected) + [files[0]]
      ensures files != [] && Rejection(files[0]) != None ==> selected == old(selected)
    {
      if |files| > 0 {
        var file := files[0];
        var ok := ValidateFile(file);
        if ok {
          selected := selected + [file];
        }
      }
    }

    /** `handleDrop`: ends the drag highlight, then treats the dropped files. */
    method HandleDrop(files: seq<VideoFile>)
      modifies this
      ensures !isDragging
      ensures files == [] ==> error == old(error) && selected == old(selected)
      ensures files != [] ==> error == Rejection(files[0])
      ensures selected == old(selected) + (if files != [] && Rejection(files[0]) == None then [files[0]] else [])
    {
      isDragging := false;
      SelectFirst(files);
    }

    /** `handleFileInput`: the input's file list may be absent. */
    method HandleFileInput(files: Option<seq<VideoFile>>)
      modifies this`error, this`selected
      ensures files.None? || files.value == [] ==> error == old(error) && selected == old(selected)
      ensures files.Some? && files.value != [] ==> error == Rejection(files.value[0])
      ensures selected == old(selected) +
        (if files.Some? && files.value != [] && Rejection(files.value[0]) == None then [files.value[0]] else [])
    {
      if files.Some? {
        SelectFirst(files.value);
      }
    }

    /** While an upload runs the progress panel replaces the drop target. */
    function View(isUploading: bool, uploadProgress: int): (v: ZoneView)
      reads this
      ensures v.ProgressPanel? <==> isUploading
      ensures v.ProgressPanel? ==> v.percent == uploadProgress
      ensures v.DropTarget? ==> v.highlighted == isDragging && v.errorShown == error
    {
      if isUploading then ProgressPanel(uploadProgress) else DropTarget(isDragging, error)
    }
  }
}
