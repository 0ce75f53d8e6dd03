/**
 * The drag-and-drop upload area: file validation (image type, then size in MB), the
 * error it shows, the drag-over highlight, and handing the first dropped or chosen file
 * to `onFileSelect`.
 */
module DragDropUpload {
  import opened Wrappers
  import opened Strings

  /** A browser `File`: its MIME type and its size in bytes. */
  datatype File = File(mimeType: string, size: nat)

  const BytesPerMB: nat := 1024 * 1024
  const Accept := "image/*"

  const NotAnImage := "Please select an image file"

  function TooLarge(maxSize: nat): string
  {
    "File size must be less than " + NatToString(maxSize) + "MB"
  }

  /** `validateFile`: `None` for an acceptable file, otherwise the message. The type check
      comes first, and a file of exactly `maxSize` MB is accepted. */
  function ValidateFile(file: File, maxSize: nat): (r: Option<string>)
    ensures !StartsWith(file.mimeType, "image/") ==> r == Some(NotAnImage)
    ensures StartsWith(file.mimeType, "image/") && file.size > maxSize * BytesPerMB ==> r == Some(TooLarge(maxSize))
    ensures r.None? <==> StartsWith(file.mimeType, "image/") && file.size <= maxSize * BytesPerMB
  {
    if !StartsWith(file.mimeType, "image/") then Some(NotAnImage)
    else if file.size as real / (1024.0 * 1024.0) > maxSize as real then Some(TooLarge(maxSize))
    else None
  }

  /** The size limit is inclusive: exactly `maxSize` MB passes, one byte more does not. */
  lemma SizeLimitIsInclusive(mimeType: string, maxSize: nat)
    requires StartsWith(mimeType, "image/")
    ensures ValidateFile(File(mimeType, maxSize * BytesPerMB), maxSize) == None
    ensures ValidateFile(File(mimeType, maxSize * BytesPerMB + 1), maxSize) == Some(TooLarge(maxSize))
  {
  }

  /** The two messages differ, so the message tells which check failed. */
  lemma MessagesDistinct(maxSize: nat)
    ensures NotAnImage != TooLarge(maxSize)
  {
    assert NotAnImage[0] != TooLarge(maxSize)[0];
  }

  class Uploader {
    /** `maxSize` in MB; the dashboard passes 5 for the banner and 2 for the picture. */
    const maxSize: nat
    /** The file filter handed to the hidden input. */
    const accept: string
    var isDragOver: bool
    var error: Option<string>
    /** The files handed to `onFileSelect`, in order. */
    var selected: seq<File>

    /** Mounting the component: maxSize defaults to 5. */
    constructor (maxSize: Option<nat>, accept: Option<string>)
      ensures this.maxSize == maxSize.GetOr(5) && this.accept == accept.GetOr(Accept)
      ensures !isDragOver && error == None && selected == []
    {
      this.maxSize := maxSize.GetOr(5);
      this.accept := accept.GetOr(Accept);
      isDragOver, error, selected := false, None, [];
    }

    /** `handleFile`: a rejected file shows its message and is not selected; an accepted one
        clears the message and is selected exactly once. */
    method HandleFile(file: File)
      modifies this`error, this`selected
      ensures ValidateFile(file, maxSize).Some? ==>
        error == ValidateFile(file, maxSize) && selected == old(selected)
      ensures ValidateFile(file, maxSize).None? ==>
        error == None && selected == old(selected) + [file]
    {
      var validationError := ValidateFile(file, maxSize);
      if validationError.Some? {
        error := validationError;
        return;
      }
      error := None;
      selected := selected + [file];
    }

    /** The 3-second timer set on a rejection clears the message. */
    method ErrorTimeout()
      modifies this`error
      ensures error == None
    {
      error := None;
    }

    method DragOver()
      modifies this`isDragOver
      ensures isDragOver
    {
      isDragOver := true;
    }

    method DragLeave()
      modifies this`isDragOver
      ensures !isDragOver
    {
      isDragOver := false;
    }

    /** `handleDrop`: the highlight goes off and only the first dropped file is handled. */
    method Drop(files: seq<File>)
      modifies this`isDragOver, this`error, this`selected
      ensures !isDragOver
      ensures files == [] ==> error == old(error) && selected == old(selected)
      ensures files != [] ==> selected == old(selected) + (if ValidateFile(files[0], maxSize).None? then [files[0]] else [])
      ensures files != [] ==> error == ValidateFile(files[0], maxSize)
    {
      isDragOver := false;
      if |files| > 0 {
        HandleFile(files[0]);
      }
    }

    /** `handleFileInput`: the input's file list may be absent; only its first file counts. */
    method FileInput(files: Option<seq<File>>)
      modifies this`error, this`selected
      ensures files.None? || files.value == [] ==> error == old(error) && selected == old(selected)
      ensures files.Some? && files.value != [] ==>
        selected == old(selected) + (if ValidateFile(files.value[0], maxSize).None? then [files.value[0]] else [])
      ensures files.Some? && files.value != [] ==> error == ValidateFile(files.value[0], maxSize)
    {
      if files.Some? && |files.value| > 0 {
        HandleFile(files.value[0]);
      }
    }
  }
}
