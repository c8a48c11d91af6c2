/**
 * The world the `generateThumbnail` handler acts on, the outcome of every
 * external call it makes, and its behaviour as a function from the world
 * before an invocation to the world after it and the invocation's outcome
 * (functions/index.js:66-290).
 *
 * Every external call (download, sharp, upload, getSignedUrl, Firestore add,
 * unlink) is an oracle in `Env` that either succeeds or fails with an error.
 */
module ThumbnailSpec {
  import opened Wrappers
  import opened StoragePaths
  import opened Eligibility

  newtype byte = x: int | 0 <= x < 256
  type Bytes = seq<byte>

  /** A thrown JavaScript error; only its message is recorded. */
  datatype Error = Error(message: string)

  datatype Result<T> = Ok(value: T) | Err(error: Error)

  /** The part of the storage event the handler reads: `object.name` and
      `object.contentType` (which may be absent). */
  datatype ObjectDescriptor = ObjectDescriptor(name: string, contentType: Option<string>)

  const ThumbnailWidth: nat := 200
  const ThumbnailHeight: nat := 200
  /** The thumbnail is re-encoded as JPEG and uploaded with this type. */
  const ThumbnailContentType: string := "image/jpeg"
  const UploadedBy: string := "system"
  const StatusProcessed: string := "PROCESADO"

  /** A document of the `imagenes` collection (without its server timestamp). */
  datatype ImageRecord = ImageRecord(
    fileName: string,
    originalUrl: string,
    thumbnailUrl: string,
    originalPath: string,
    thumbnailPath: string,
    contentType: string,
    uploadedBy: string,
    status: string,
    width: nat,
    height: nat)

  /** A document of the `errores` collection (without timestamp and stack). */
  datatype ErrorRecord = ErrorRecord(fileName: string, filePath: string, error: string)

  /** The effects an invocation had, in the order they happened. */
  datatype Effect =
    | Downloaded(path: string, scratchFile: string)
    | Transformed(input: string, output: string)
    | Uploaded(scratchFile: string, destination: string, contentType: string, originalFile: string)
    | AddedImage(image: ImageRecord)
    | Unlinked(file: string)
    | AddedError(failure: ErrorRecord)

  /** Blob store (path to contents), scratch files in the temporary
      directory, the two Firestore collections and the effect trace. */
  datatype World = World(
    blobs: map<string, Bytes>,
    scratch: map<string, Bytes>,
    imagenes: seq<ImageRecord>,
    errores: seq<ErrorRecord>,
    trace: seq<Effect>)

  /** What each external call does on this invocation. `sharp` maps the
      bytes of the original to the encoded thumbnail, or fails. */
  datatype Env = Env(
    download: Option<Error>,
    sharp: Bytes -> Result<Bytes>,
    upload: Option<Error>,
    originalUrl: Result<string>,
    thumbnailUrl: Result<string>,
    addImage: Option<Error>,
    unlinkInput: Option<Error>,       // fs.unlinkSync on the success path
    unlinkThumb: Option<Error>,
    cleanupInput: Option<Error>,      // fs.unlinkSync inside the catch block
    cleanupThumb: Option<Error>,
    addError: Option<Error>)

  /** How the invocation ends: `return null`, the success object, or a throw. */
  datatype Outcome =
    | Skipped
    | Processed(originalPath: string, thumbnailPath: string)
    | Threw(error: Error)

  /** The world after one external call and the error it threw, if any. */
  datatype Step = Step(world: World, fault: Option<Error>)

  datatype Invocation = Invocation(world: World, outcome: Outcome)

  /** The error the storage client raises for a missing object. */
  function NoSuchObject(path: string): Error {
    Error("No such object: " + path)
  }

  /** `originalFile.download({destination: dst})`. */
  function DownloadStep(w: World, env: Env, src: string, dst: string): Step {
    if env.download.Some? then Step(w, env.download)
    else if src !in w.blobs then Step(w, Some(NoSuchObject(src)))
    else Step(w.(scratch := w.scratch[dst := w.blobs[src]],
                 trace := w.trace + [Downloaded(src, dst)]), None)
  }

  /** `sharp(src).resize(...).jpeg(...).toFile(dst)`. */
  function TransformStep(w: World, env: Env, src: string, dst: string): Step
    requires src in w.scratch
  {
    match env.sharp(w.scratch[src])
    case Err(e) => Step(w, Some(e))
    case Ok(thumb) =>
      Step(w.(scratch := w.scratch[dst := thumb],
              trace := w.trace + [Transformed(src, dst)]), None)
  }

  /** `bucket.upload(src, {destination: dst, metadata: {contentType: "image/jpeg", ...}})`. */
  function UploadStep(w: World, env: Env, src: string, dst: string, originalFile: string): Step
    requires src in w.scratch
  {
    if env.upload.Some? then Step(w, env.upload)
    else Step(w.(blobs := w.blobs[dst := w.scratch[src]],
                 trace := w.trace + [Uploaded(src, dst, ThumbnailContentType, originalFile)]), None)
  }

  /** `firestore.collection("imagenes").add(rec)`. */
  function AddImageStep(w: World, env: Env, rec: ImageRecord): Step {
    if env.addImage.Some? then Step(w, env.addImage)
    else Step(w.(imagenes := w.imagenes + [rec], trace := w.trace + [AddedImage(rec)]), None)
  }

  /** `fs.unlinkSync(file)` on an existing file, failing with `fault`. */
  function UnlinkStep(w: World, fault: Option<Error>, file: string): Step
    requires file in w.scratch
  {
    if fault.Some? then Step(w, fault)
    else Step(w.(scratch := w.scratch - {file}, trace := w.trace + [Unlinked(file)]), None)
  }

  /** `firestore.collection("errores").add(rec)`; a failure is swallowed. */
  function AddErrorStep(w: World, env: Env, rec: ErrorRecord): World {
    if env.addError.Some? then w
    else w.(errores := w.errores + [rec], trace := w.trace + [AddedError(rec)])
  }

  /** The `imagenes` document written for a processed upload. */
  function ImageRecordFor(filePath: string, contentType: string, ps: Paths,
                          originalUrl: string, thumbnailUrl: string): ImageRecord
  {
    ImageRecord(ps.fileName, originalUrl, thumbnailUrl, filePath, ps.thumbnailFilePath,
                contentType, UploadedBy, StatusProcessed, ThumbnailWidth, ThumbnailHeight)
  }

  /** The body of the `try` block (functions/index.js:133-252): each step
      runs only if the ones before it succeeded; the first error stops it. */
  function TryBlock(w: World, env: Env, filePath: string, contentType: string, ps: Paths): Step
    requires ps.tempLocalFile != ps.tempLocalThumbFile
  {
    var d := DownloadStep(w, env, filePath, ps.tempLocalFile);
    if d.fault.Some? then d else
    var t := TransformStep(d.world, env, ps.tempLocalFile, ps.tempLocalThumbFile);
    if t.fault.Some? then t else
    var u := UploadStep(t.world, env, ps.tempLocalThumbFile, ps.thumbnailFilePath, filePath);
    if u.fault.Some? then u else
    if env.originalUrl.Err? then Step(u.world, Some(env.originalUrl.error)) else
    if env.thumbnailUrl.Err? then Step(u.world, Some(env.thumbnailUrl.error)) else
    var rec := ImageRecordFor(filePath, contentType, ps, env.originalUrl.value, env.thumbnailUrl.value);
    var a := AddImageStep(u.world, env, rec);
    if a.fault.Some? then a else
    var x := UnlinkStep(a.world, env.unlinkInput, ps.tempLocalFile);
    if x.fault.Some? then x else
    UnlinkStep(x.world, env.unlinkThumb, ps.tempLocalThumbFile)
  }

  /** The inner `try` of the catch block (functions/index.js:263-272): each
      scratch file that exists is unlinked; a failure of the first unlink
      skips the second and is swallowed. */
  function Cleanup(w: World, env: Env, ps: Paths): World {
    var first := if ps.tempLocalFile in w.scratch
                 then UnlinkStep(w, env.cleanupInput, ps.tempLocalFile)
                 else Step(w, None);
    if first.fault.Some? then first.world
    else if ps.tempLocalThumbFile in first.world.scratch
    then UnlinkStep(first.world, env.cleanupThumb, ps.tempLocalThumbFile).world
    else first.world
  }

  /** The catch block (functions/index.js:254-289) without its rethrow. */
  function CatchBlock(w: World, env: Env, filePath: string, ps: Paths, e: Error): World {
    AddErrorStep(Cleanup(w, env, ps), env, ErrorRecord(ps.fileName, filePath, e.message))
  }

  /** One invocation of the handler on the upload `obj`; `tmpDir` is `os.tmpdir()`. */
  function Handle(w: World, env: Env, obj: ObjectDescriptor, tmpDir: string): Invocation {
    if Guard(obj.contentType, obj.name) != Eligible then Invocation(w, Skipped)
    else
      var ps := DerivePaths(obj.name, tmpDir);
      var t := TryBlock(w, env, obj.name, obj.contentType.value, ps);
      if t.fault.None? then Invocation(t.world, Processed(obj.name, ps.thumbnailFilePath))
      else Invocation(CatchBlock(t.world, env, obj.name, ps, t.fault.value), Threw(t.fault.value))
  }

  /** Reference for the error the `try` block throws: the error of its first
      failing call, in program order, or none. */
  function FirstFault(w: World, env: Env, filePath: string): Option<Error> {
    if env.download.Some? then env.download
    else if filePath !in w.blobs then Some(NoSuchObject(filePath))
    else if env.sharp(w.blobs[filePath]).Err? then Some(env.sharp(w.blobs[filePath]).error)
    else if env.upload.Some? then env.upload
    else if env.originalUrl.Err? then Some(env.originalUrl.error)
    else if env.thumbnailUrl.Err? then Some(env.thumbnailUrl.error)
    else if env.addImage.Some? then env.addImage
    else if env.unlinkInput.Some? then env.unlinkInput
    else env.unlinkThumb
  }

  /** Reference for the outcome: skipped when the guard refuses, otherwise
      the first failure of the `try` block or success with the destination.
      It does not read the cleanup and `errores` oracles. */
  function ExpectedOutcome(w: World, env: Env, obj: ObjectDescriptor): Outcome {
    if Guard(obj.contentType, obj.name) != Eligible then Skipped
    else match FirstFault(w, env, obj.name)
      case Some(e) => Threw(e)
      case None => Processed(obj.name, Destination(obj.name))
  }
}
