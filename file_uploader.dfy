/** The media file picker: validation by size and MIME type against the `accept` list,
    the selection state that only valid files reach, and the unit chosen for display. */
module FileUploader {
  import opened Base
  import opened Text

  /** A browser `File`, as far as the page reads it. */
  datatype File = File(name: string, size: nat, mimeType: string)

  const DefaultAccept: string := "video/*,audio/*"

  /** 500 MiB. */
  const DefaultMaxSize: nat := 500 * 1024 * 1024

  /** `accept.split(',').map(t => t.trim())`. */
  function AcceptedTypes(accept: string): (types: seq<string>)
    ensures |types| == |Split(accept, ',')|
    ensures forall i :: 0 <= i < |types| ==> types[i] == Trim(Split(accept, ',')[i])
  {
    var parts := Split(accept, ',');
    seq(|parts|, i requires 0 <= i < |parts| => Trim(parts[i]))
  }

  /** The type test: any video or audio type, or an exact (trimmed) entry of `accept`. */
  predicate TypeAccepted(mimeType: string, accept: string)
  {
    StartsWith(mimeType, "video/") || StartsWith(mimeType, "audio/") || mimeType in AcceptedTypes(accept)
  }

  /** `validateFile`: None when the file passes, else the message it sets. The size
      test comes first; the limit in the message is rounded to whole MiB. */
  function Validate(file: File, accept: string, maxSize: nat): (error: Option<string>)
    ensures error.None? <==> file.size <= maxSize && TypeAccepted(file.mimeType, accept)
    ensures file.size > maxSize ==>
      error == Some("File size exceeds " + NatToString(RoundDiv(maxSize, 1024 * 1024)) + "MB")
    ensures file.size <= maxSize && !TypeAccepted(file.mimeType, accept) ==>
      error == Some("Invalid file type. Please upload a video or audio file.")
  {
    if file.size > maxSize then
      Some("File size exceeds " + NatToString(RoundDiv(maxSize, 1024 * 1024)) + "MB")
    else if !TypeAccepted(file.mimeType, accept) then
      Some("Invalid file type. Please upload a video or audio file.")
    else None
  }

  /** The unit `formatFileSize` prints the size in. */
  function SizeUnit(bytes: int): (unit: string)
    ensures unit == "B" <==> bytes < 1024
    ensures unit == "KB" <==> 1024 <= bytes < 1024 * 1024
    ensures unit == "MB" <==> 1024 * 1024 <= bytes
  {
    if bytes < 1024 then "B" else if bytes < 1024 * 1024 then "KB" else "MB"
  }

  /** The uploader's state, with the files it reported through `onFileSelect`. */
  class UploaderView {
    var selectedFile: Option<File>
    var error: string
    var dragActive: bool
    var reported: seq<File>
    const accept: string
    const maxSize: nat

    constructor (accept: string, maxSize: nat)
      ensures this.accept == accept && this.maxSize == maxSize
      ensures selectedFile == None && error == "" && !dragActive && reported == []
    {
      this.accept := accept;
      this.maxSize := maxSize;
      selectedFile := None;
      error := "";
      dragActive := false;
      reported := [];
    }

    /** `handleFile`: a valid file is selected and reported; an invalid one only sets the error. */
    method HandleFile(file: File)
      modifies this
      ensures Validate(file, accept, maxSize).None? ==>
        && selectedFile == Some(file) && reported == old(reported) + [file] && error == ""
      ensures Validate(file, accept, maxSize).Some? ==>
        && selectedFile == old(selectedFile) && reported == old(reported)
        && error == Validate(file, accept, maxSize).value
      ensures dragActive == old(dragActive)
    {
      error := "";
      var v := Validate(file, accept, maxSize);
      if v.Some? {
        error := v.value;
        return;
      }
      selectedFile := Some(file);
      reported := reported + [file];
    }

    /** A drop or an input change: only the first file is considered, none is a no-op.
        A drop also ends the drag highlight. */
    method HandleFiles(files: seq<File>, isDrop: bool)
      modifies this
      ensures files == [] ==>
        selectedFile == old(selectedFile) && reported == old(reported) && error == old(error)
      ensures files != [] && Validate(files[0], accept, maxSize).None? ==>
        selectedFile == Some(files[0]) && reported == old(reported) + [files[0]] && error == ""
      ensures files != [] && Validate(files[0], accept, maxSize).Some? ==>
        && selectedFile == old(selectedFile) && reported == old(reported)
        && error == Validate(files[0], accept, maxSize).value
      ensures dragActive == (if isDrop then false else old(dragActive))
    {
      if isDrop {
        dragActive := false;
      }
      if files != [] {
        HandleFile(files[0]);
      }
    }

    /** `handleRemove`: the selection and the error are both cleared. */
    method HandleRemove()
      modifies this
      ensures selectedFile == None && error == ""
      ensures reported == old(reported) && dragActive == old(dragActive)
    {
      selectedFile := None;
      error := "";
    }
  }
}
