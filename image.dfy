/** File validation and compression settings (src/lib/image.ts). The
 *  compression library is a function parameter that yields the compressed
 *  file, or `None` when it throws. */
module Image {
  import opened Common
  import opened Types

  const ACCEPTED_TYPES: seq<string> := ["image/jpeg", "image/png", "image/webp", "image/gif"]

  /** 10 MiB, in bytes. */
  const MAX_SIZE := 10 * 1024 * 1024

  const TYPE_ERROR := "Please upload a valid image (JPEG, PNG, WebP, or GIF)"
  const SIZE_ERROR := "Image size must be less than 10MB"

  datatype Validation = Validation(valid: bool, error: Option<string>)

  /** `validateImageFile`: the type is checked before the size, and a valid
      file carries no error. */
  function ValidateImageFile(f: File): (v: Validation)
    ensures v.valid <==> f.mime in ACCEPTED_TYPES && f.size <= MAX_SIZE
    ensures v.valid <==> v.error.None?
    ensures f.mime !in ACCEPTED_TYPES ==> v.error == Some(TYPE_ERROR)
    ensures f.mime in ACCEPTED_TYPES && f.size > MAX_SIZE ==> v.error == Some(SIZE_ERROR)
  {
    if f.mime !in ACCEPTED_TYPES then Validation(false, Some(TYPE_ERROR))
    else if f.size > MAX_SIZE then Validation(false, Some(SIZE_ERROR))
    else Validation(true, None)
  }

  /** Exactly 10 MiB is accepted; one byte more is not. */
  lemma SizeLimitIsInclusive(name: string, mime: string)
    requires mime in ACCEPTED_TYPES
    ensures ValidateImageFile(File(name, mime, MAX_SIZE)).valid
    ensures ValidateImageFile(File(name, mime, MAX_SIZE + 1)).error == Some(SIZE_ERROR)
  {
  }

  /** Caller options: each field may be left out. */
  datatype CompressionOptions = CompressionOptions(maxSizeMB: Option<real>, maxWidthOrHeight: Option<int>,
                                                   useWebWorker: Option<bool>)

  /** The options the library receives: every field set. */
  datatype Settings = Settings(maxSizeMB: real, maxWidthOrHeight: int, useWebWorker: bool)

  const DEFAULT_SETTINGS := Settings(1.0, 1920, true)

  /** `{ ...DEFAULT_OPTIONS, ...options }`: each field the caller gives wins,
      every other field keeps its default. */
  function MergeOptions(o: CompressionOptions): (s: Settings)
    ensures o.maxSizeMB.Some? ==> s.maxSizeMB == o.maxSizeMB.value
    ensures o.maxSizeMB.None? ==> s.maxSizeMB == DEFAULT_SETTINGS.maxSizeMB
    ensures o.maxWidthOrHeight.Some? ==> s.maxWidthOrHeight == o.maxWidthOrHeight.value
    ensures o.maxWidthOrHeight.None? ==> s.maxWidthOrHeight == DEFAULT_SETTINGS.maxWidthOrHeight
    ensures o.useWebWorker.Some? ==> s.useWebWorker == o.useWebWorker.value
    ensures o.useWebWorker.None? ==> s.useWebWorker == DEFAULT_SETTINGS.useWebWorker
  {
    Settings(
      match o.maxSizeMB case Some(v) => v case None => DEFAULT_SETTINGS.maxSizeMB,
      match o.maxWidthOrHeight case Some(v) => v case None => DEFAULT_SETTINGS.maxWidthOrHeight,
      match o.useWebWorker case Some(v) => v case None => DEFAULT_SETTINGS.useWebWorker)
  }

  /** Merging no options gives the defaults. */
  lemma NoOptionsMeansDefaults()
    ensures MergeOptions(CompressionOptions(None, None, None)) == DEFAULT_SETTINGS
  {
  }

  /** `compressImage`: the library's output, or the original file when the
      library throws. */
  function CompressImage(f: File, o: CompressionOptions, compress: (File, Settings) -> Option<File>): (r: File)
    ensures compress(f, MergeOptions(o)).Some? ==> r == compress(f, MergeOptions(o)).value
    ensures compress(f, MergeOptions(o)).None? ==> r == f
  {
    match compress(f, MergeOptions(o))
    case Some(g) => g
    case None => f
  }
}
