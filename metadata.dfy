/**
 * Preview metadata of an uploaded file, chosen by the file's MIME type.
 *
 * A fixed table maps each supported MIME type to options (a reader and a file
 * category). `ReadFile` hands a supported file to the image reader and any other
 * file to a fallback that only looks at the file's last-modified time. The image
 * reader and the conversion of a time to an ISO-8601 string belong to code this
 * model does not contain, so they are parameters.
 */
module FileMetadata {
  import opened Optional

  datatype FileCategory = IMAGE | SOUND | VIDEO

  /** Structured tags read from an image (EXIF); their content is up to the image reader. */
  datatype ExifTags = ExifTags(entries: map<string, string>)

  type FileTags = Option<ExifTags>

  /** The uniform descriptor of one file. */
  datatype FileInfo = FileInfo(date: Option<string>, preview: string, tags: FileTags)

  /** A browser file handle: its declared MIME type and its last-modified time in milliseconds since the epoch. */
  datatype File = File(name: string, mimeType: string, lastModified: int)

  /** How a reader's promise settles. */
  datatype Promise = Resolved(info: FileInfo) | Rejected(reason: string)

  /** The readers the options table can hold. */
  datatype Reader =
    | ReadImage        // the image reader itself
    | ReturnReadImage  // `() => readImage`: a function that returns the image reader instead of calling it

  /** What calling a reader on a file gives back. */
  datatype ReaderOutput = Pending(promise: Promise) | ImageReaderFunction

  datatype Options = Options(reader: Reader, category: FileCategory)

  const IMAGE_OPTIONS: Options := Options(ReadImage, IMAGE)
  const SOUND_OPTIONS: Options := Options(ReturnReadImage, SOUND)
  const VIDEO_OPTIONS: Options := Options(ReturnReadImage, VIDEO)

  const MIME_OPTIONS: map<string, Options> := map[
    "image/bmp" := IMAGE_OPTIONS,
    "image/png" := IMAGE_OPTIONS,
    "image/jpeg" := IMAGE_OPTIONS,
    "image/gif" := IMAGE_OPTIONS,
    "image/svg+xml" := IMAGE_OPTIONS,
    "image/webp" := IMAGE_OPTIONS
  ]

  /** Calling `reader(file)`; `readImage` is the image reader. */
  function Invoke(reader: Reader, file: File, readImage: File -> Promise): ReaderOutput {
    match reader
    case ReadImage => Pending(readImage(file))
    case ReturnReadImage => ImageReaderFunction
  }

  /** The sound and video readers never produce a descriptor: they hand back the image reader itself. */
  lemma SoundAndVideoReadersReturnTheImageReader(file: File, readImage: File -> Promise)
    ensures Invoke(SOUND_OPTIONS.reader, file, readImage) == ImageReaderFunction
    ensures Invoke(VIDEO_OPTIONS.reader, file, readImage) == ImageReaderFunction
  {
  }

  /** The table holds the image options and nothing else. */
  lemma EveryMimeIsAnImage(mime: string)
    requires mime in MIME_OPTIONS
    ensures MIME_OPTIONS[mime].category == IMAGE
    ensures MIME_OPTIONS[mime].reader == ReadImage
  {
  }

  /** A MIME type is supported when it is one of the table's keys, compared exactly. */
  function IsSupportedMime(mime: string): (supported: bool)
    ensures supported <==> mime in {"image/bmp", "image/png", "image/jpeg", "image/gif", "image/svg+xml", "image/webp"}
  {
    mime in MIME_OPTIONS
  }

  /** The largest distance from the epoch, in milliseconds, that a JavaScript `Date` can hold. */
  const MAX_TIME_MS: int := 8_640_000_000_000_000

  /** `new Date(t)` is a valid date exactly within the range of a JavaScript `Date`. */
  predicate IsValidTime(t: int) {
    -MAX_TIME_MS <= t <= MAX_TIME_MS
  }

  /**
   * The fallback reader: the file's last-modified time as an ISO-8601 string,
   * no preview and no tags. `toIso` is `Date.prototype.toISOString`, which
   * throws on an invalid date; the reader is asynchronous, so the throw
   * rejects its promise.
   */
  function ReadUnsupportedFile(file: File, toIso: int -> string): (p: Promise)
    ensures p.Resolved? <==> IsValidTime(file.lastModified)
    ensures p.Resolved? ==> p.info == FileInfo(Some(toIso(file.lastModified)), "", None)
  {
    if IsValidTime(file.lastModified) then
      Resolved(FileInfo(Some(toIso(file.lastModified)), "", None))
    else
      Rejected("RangeError: Invalid time value")
  }

  /** The fallback depends on the last-modified time alone. */
  lemma UnsupportedDependsOnlyOnLastModified(f: File, g: File, toIso: int -> string)
    requires f.lastModified == g.lastModified
    ensures ReadUnsupportedFile(f, toIso) == ReadUnsupportedFile(g, toIso)
  {
  }

  /**
   * `readFile(file)`: a supported MIME type goes to the reader of its options,
   * anything else to the fallback.
   */
  function ReadFile(file: File, readImage: File -> Promise, toIso: int -> string): (out: ReaderOutput)
    ensures IsSupportedMime(file.mimeType) ==> out == Pending(readImage(file))
    ensures !IsSupportedMime(file.mimeType) ==> out == Pending(ReadUnsupportedFile(file, toIso))
  {
    if IsSupportedMime(file.mimeType) then
      Invoke(MIME_OPTIONS[file.mimeType].reader, file, readImage)
    else
      Pending(ReadUnsupportedFile(file, toIso))
  }

  /** For an unsupported file the image reader is never consulted: any image reader gives the same result. */
  lemma UnsupportedIgnoresImageReader(file: File, r1: File -> Promise, r2: File -> Promise, toIso: int -> string)
    requires !IsSupportedMime(file.mimeType)
    ensures ReadFile(file, r1, toIso) == ReadFile(file, r2, toIso)
  {
  }

  /** `readFile` fails only when the image reader fails, or when the fallback meets an invalid date. */
  lemma ReadFileFailsOnlyThroughReaders(file: File, readImage: File -> Promise, toIso: int -> string)
    ensures ReadFile(file, readImage, toIso).Pending?
    ensures ReadFile(file, readImage, toIso).promise.Rejected? ==>
              (IsSupportedMime(file.mimeType) && readImage(file).Rejected?) ||
              (!IsSupportedMime(file.mimeType) && !IsValidTime(file.lastModified))
  {
  }

  /** The properties every JavaScript object inherits from `Object.prototype`. */
  const OBJECT_PROTOTYPE_KEYS: set<string> := {
    "constructor", "__proto__", "__defineGetter__", "__defineSetter__",
    "__lookupGetter__", "__lookupSetter__", "hasOwnProperty", "isPrototypeOf",
    "propertyIsEnumerable", "toLocaleString", "toString", "valueOf"
  }

  /** The result of calling a synchronous function: a value, or an exception. */
  datatype Completion = Returned(out: ReaderOutput) | Threw(error: string)

  /** `mime in MIME_OPTIONS` as JavaScript evaluates it: own keys and inherited ones. */
  function InOperator(mime: string): (found: bool)
    ensures found <==> IsSupportedMime(mime) || mime in OBJECT_PROTOTYPE_KEYS
  {
    mime in MIME_OPTIONS || mime in OBJECT_PROTOTYPE_KEYS
  }

  /**
   * `readFile` as written: for an inherited key the lookup yields a value
   * without a `reader` property, and calling it throws a TypeError.
   */
  function ReadFileAsWritten(file: File, readImage: File -> Promise, toIso: int -> string): (c: Completion)
    ensures c.Threw? <==> file.mimeType in OBJECT_PROTOTYPE_KEYS
    ensures c.Returned? ==> c.out == ReadFile(file, readImage, toIso)
  {
    if InOperator(file.mimeType) then
      if file.mimeType in MIME_OPTIONS then Returned(Invoke(MIME_OPTIONS[file.mimeType].reader, file, readImage))
      else Threw("TypeError: options.reader is not a function")
    else
      Returned(Pending(ReadUnsupportedFile(file, toIso)))
  }

  /** A file whose MIME type is `constructor` makes `readFile` as written throw instead of falling back. */
  lemma AsWrittenThrowsOnInheritedKey(readImage: File -> Promise, toIso: int -> string)
    ensures ReadFileAsWritten(File("upload", "constructor", 0), readImage, toIso).Threw?
    ensures ReadFile(File("upload", "constructor", 0), readImage, toIso) == Pending(ReadUnsupportedFile(File("upload", "constructor", 0), toIso))
  {
    assert "constructor" !in MIME_OPTIONS;
  }

  /** Away from the inherited keys, `readFile` as written and the own-key model agree. */
  lemma AsWrittenAgreesOnOtherTypes(file: File, readImage: File -> Promise, toIso: int -> string)
    requires file.mimeType !in OBJECT_PROTOTYPE_KEYS
    ensures ReadFileAsWritten(file, readImage, toIso) == Returned(ReadFile(file, readImage, toIso))
  {
  }
}
