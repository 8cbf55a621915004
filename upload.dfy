/**
 * The upload middleware's configuration (backend/utils/upload.js): the MIME
 * type allow-list applied by `fileFilter` and the `fileSize` limit.
 */
module Upload {

  import opened Wrappers
  import opened Http

  /** The part `upload.single('document')` buffers in memory: `req.file`; its `size` is the buffer length. */
  datatype UploadedFile = UploadedFile(originalname: string, mimetype: string, buffer: seq<byte>)

  const AllowedTypes: seq<string> := [
    "application/msword",
    "application/vnd.openxmlformats-officedocument.wordprocessingml.document",
    "application/vnd.ms-excel",
    "application/vnd.openxmlformats-officedocument.spreadsheetml.sheet",
    "application/vnd.ms-powerpoint",
    "application/vnd.openxmlformats-officedocument.presentationml.presentation",
    "application/pdf",
    "text/plain",
    "text/csv",
    "image/jpeg",
    "image/png"
  ]

  /** What `fileFilter` passes to its callback: `cb(error, accept)`. */
  datatype FilterDecision = FilterDecision(error: Option<string>, accept: bool)

  function FileFilter(mimetype: string): (r: FilterDecision)
    ensures r.accept <==> mimetype in AllowedTypes
    ensures r.accept ==> r.error.None?
    ensures !r.accept ==> r.error == Some("Invalid file type")
  {
    if mimetype in AllowedTypes then FilterDecision(None, true)
    else FilterDecision(Some("Invalid file type"), false)
  }

  /** `limits.fileSize`: 15 MiB, although the comment beside it says 16MB. */
  const FileSizeLimit: nat := 1024 * 1024 * 15

  predicate WithinSizeLimit(size: nat) {
    size <= FileSizeLimit
  }

  /**
   * Whether the upload middleware lets a file through: the filter runs when
   * the part starts, the size limit while it streams; either error goes to
   * the framework's error handler.
   */
  function UploadCheck(f: UploadedFile): (r: Option<string>)
    ensures r.None? <==> f.mimetype in AllowedTypes && WithinSizeLimit(|f.buffer|)
    ensures f.mimetype !in AllowedTypes ==> r == Some("Invalid file type")
    ensures f.mimetype in AllowedTypes && !WithinSizeLimit(|f.buffer|) ==> r == Some("File too large")
  {
    var d := FileFilter(f.mimetype);
    if !d.accept then d.error
    else if !WithinSizeLimit(|f.buffer|) then Some("File too large")
    else None
  }

  lemma AllowListShape()
    ensures |AllowedTypes| == 11
    ensures forall i, j :: 0 <= i < j < |AllowedTypes| ==> AllowedTypes[i] != AllowedTypes[j]
  {
  }

  lemma ZipRejected()
    ensures FileFilter("application/zip") == FilterDecision(Some("Invalid file type"), false)
  {
  }

  lemma SizeLimitValue()
    ensures FileSizeLimit == 15728640
    ensures WithinSizeLimit(15728640) && !WithinSizeLimit(15728641)
    ensures FileSizeLimit < 16 * 1024 * 1024
  {
  }
}
