/** `IngestAgent.run`: load the primary HDU of a FITS file. Opening the file is
    the agent's only effect; here the file system is a parameter, so the agent
    is a function of the path and the store. */
module IngestAgent {
  import opened Python
  import opened Fits

  const BadPathText := "FITS file path must be a non-empty string."
  const NoDataText := "FITS file does not contain primary HDU data."

  function NotFoundText(path: string): string
  {
    "FITS file not found at: " + path
  }

  /** The `IOError` text for any failure while the file is open. */
  function ReadFailedText(path: string, reason: string): string
  {
    "Failed to read FITS file " + path + ": " + reason
  }

  /** The path check comes first, then the existence check outside the `try`
      (so `FileNotFoundError` escapes unwrapped), then the read inside the
      `try`, where every failure, the agent's own "no data" `ValueError`
      included, is re-raised as `IOError`. */
  function Run(files: FileStore, path: PathArg): (r: Result<Image>)
    // the only ValueError that escapes is the path check
    ensures r.Raise? && r.error.ValueError? <==> !(path.PathStr? && path.s != "")
    // FileNotFoundError exactly for a well-formed path that does not exist
    ensures r.Raise? && r.error.FileNotFoundError? <==> path.PathStr? && path.s != "" && path.s !in files
    // every other failure happens on an existing file and is an IOError
    ensures r.Raise? && !r.error.ValueError? && !r.error.FileNotFoundError? ==>
              r.error.IOError? && path.PathStr? && path.s in files
    // on success: the primary HDU's data and header, unmodified
    ensures r.Ok? <==>
              path.PathStr? && path.s != "" && path.s in files && files[path.s].FitsFile?
              && |files[path.s].hdus| > 0 && files[path.s].hdus[0].data.Some?
    ensures r.Ok? ==>
              var hdu := files[path.s].hdus[0];
              r.value == Image(hdu.data.value, hdu.header)
  {
    match path
    case NonStr(_) => Raise(ValueError(BadPathText))
    case PathStr(p) =>
      if p == "" then Raise(ValueError(BadPathText))
      else if p !in files then Raise(FileNotFoundError(NotFoundText(p)))
      else
        match files[p]
        case Unreadable(reason) => Raise(IOError(ReadFailedText(p, reason)))
        case FitsFile(hdus) =>
          if |hdus| == 0 || hdus[0].data.None? then
            Raise(IOError(ReadFailedText(p, ValueError(NoDataText).Str())))
          else
            Ok(Image(hdus[0].data.value, hdus[0].header))
  }

  /** A file whose primary HDU has no data is reported as an `IOError` that
      carries the agent's own message, not as a `ValueError`. */
  lemma NoDataIsIOError(files: FileStore, p: string)
    requires p != "" && p in files && files[p].FitsFile?
    requires |files[p].hdus| == 0 || files[p].hdus[0].data.None?
    ensures Run(files, PathStr(p)) == Raise(IOError(ReadFailedText(p, NoDataText)))
  {
  }
}
