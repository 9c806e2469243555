/** The image-upload helper: which filename, if any, an uploaded file leaves in an `image` column. */
module Media {
  import opened Wrappers

  /** A file part of a submitted form; only its client-supplied filename matters to the store. */
  datatype Upload = Upload(filename: string)

  /**
   * The name under which an upload is saved: none when no file was sent or its filename is
   * empty, otherwise the client's filename exactly as given.
   */
  function SaveImage(file: Option<Upload>): (stored: Option<string>)
    ensures stored.None? <==> file.None? || file.value.filename == ""
    ensures stored.Some? ==> stored.value == file.value.filename
  {
    if file.None? || file.value.filename == "" then None else Some(file.value.filename)
  }

  /** The image an edit leaves on a row: the new upload when one with a filename came, else the current image. */
  function EditedImage(current: Option<string>, file: Option<Upload>): (image: Option<string>)
    ensures file.Some? && file.value.filename != "" ==> image == Some(file.value.filename)
    ensures file.None? || file.value.filename == "" ==> image == current
  {
    if file.Some? && file.value.filename != "" then SaveImage(file) else current
  }
}
