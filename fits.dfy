/** FITS headers, numpy pixel arrays and the store of files they are read from. */
module Fits {
  import opened Python

  /** The value of a header card. A Python `bool` is an `int`, so it takes part
      in arithmetic as 0 or 1. */
  datatype HVal = HInt(i: int) | HReal(r: real) | HBool(b: bool) | HStr(s: string)
  {
    predicate IsNumber()
    {
      !HStr?
    }

    function AsReal(): real
      requires IsNumber()
    {
      match this
      case HInt(i) => i as real
      case HReal(r) => r
      case HBool(b) => if b then 1.0 else 0.0
    }

    /** The name `type(v).__name__` gives. */
    function TypeName(): string
    {
      match this
      case HInt(_) => "int"
      case HReal(_) => "float"
      case HBool(_) => "bool"
      case HStr(_) => "str"
    }
  }

  /** An `astropy.io.fits.Header`, as keyword to value. Keywords are taken to be
      in their canonical upper-case form. */
  type Header = map<string, HVal>

  /** A numpy array: its shape (so `ndim` is `|shape|`) and its elements in
      row-major order. */
  datatype NdArray = NdArray(shape: seq<nat>, data: seq<real>)

  /** What a caller may pass where an agent expects pixel data: an ndarray, or
      some other object, which may or may not have a `shape` attribute. */
  datatype PixelArg = Array(nd: NdArray) | NonArray(typeName: string, hasShape: bool)

  /** What a caller may pass where an agent expects a header. */
  datatype HeaderArg = FitsHeader(cards: Header) | NonHeader(typeName: string)

  /** Pixel data with its header: what ingestion and calibration return. */
  datatype Image = Image(data: NdArray, header: Header)

  /** One header-data unit of a FITS file; `data` is `None` when the unit has none. */
  datatype Hdu = Hdu(data: Option<NdArray>, header: Header)

  /** What is found at an existing path: a FITS file that opens to a list of
      HDUs, or something `fits.open` fails on (a directory, a corrupt file, a
      file without read permission), with the text of that failure. */
  datatype FileEntry = FitsFile(hdus: seq<Hdu>) | Unreadable(reason: string)

  /** The file system as seen by the ingest agent: the paths that exist. */
  type FileStore = map<string, FileEntry>

  /** What a caller may pass as a file path. */
  datatype PathArg = PathStr(s: string) | NonStr(typeName: string)
}
