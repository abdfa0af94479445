/**
 * The PDF check shared by `handleDrop` and `handleFileSelect` in both
 * onboarding pages: only the first file of a drop or a file-picker selection
 * is looked at, and it replaces the uploaded file only when its MIME type is
 * exactly "application/pdf".
 */
module Upload {
  import opened Wrappers

  /** The part of a browser `File` the pages look at. */
  datatype File = File(name: string, mimeType: string)

  const PdfType: string := "application/pdf"

  predicate IsPdf(f: File) {
    f.mimeType == PdfType
  }

  /** Either nothing is uploaded or the uploaded file is a PDF. */
  predicate Holds(uploaded: Option<File>) {
    uploaded.None? || IsPdf(uploaded.value)
  }

  /** The uploaded file after a drop of `files` (`e.dataTransfer.files`). */
  function AfterDrop(uploaded: Option<File>, files: seq<File>): (r: Option<File>)
    ensures r == uploaded || (|files| > 0 && r == Some(files[0]))
    ensures r != uploaded ==> IsPdf(r.value)
    ensures Holds(uploaded) ==> Holds(r)
  {
    if |files| > 0 && IsPdf(files[0]) then Some(files[0]) else uploaded
  }

  /** The uploaded file after a file-picker change; `e.target.files` may be null. */
  function AfterSelect(uploaded: Option<File>, files: Option<seq<File>>): (r: Option<File>)
    ensures files.None? ==> r == uploaded
    ensures files.Some? ==> r == AfterDrop(uploaded, files.value)
  {
    if files.Some? then AfterDrop(uploaded, files.value) else uploaded
  }

  /** A PDF offered first is always taken, and anything else never is. */
  lemma AcceptsExactlyPdf(uploaded: Option<File>, f: File, rest: seq<File>)
    ensures IsPdf(f) ==> AfterDrop(uploaded, [f] + rest) == Some(f)
    ensures !IsPdf(f) ==> AfterDrop(uploaded, [f] + rest) == uploaded
    ensures AfterDrop(uploaded, []) == uploaded
  {
  }
}
