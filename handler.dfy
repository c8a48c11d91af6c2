/**
 * The handler as the step-by-step program it is: a `Backend` object holds
 * the blob store, the scratch files, the `imagenes` and `errores`
 * collections and the effect trace, and each external call is a method that
 * changes them. Every method is proved to do exactly what the matching
 * function of `ThumbnailSpec` describes.
 */
module ThumbnailHandler {
  import opened Wrappers
  import opened StoragePaths
  import opened Eligibility
  import opened ThumbnailSpec

  class Backend {
    var blobs: map<string, Bytes>
    var scratch: map<string, Bytes>
    var imagenes: seq<ImageRecord>
    var errores: seq<ErrorRecord>
    var trace: seq<Effect>

    /** The abstract value of the backend. */
    function State(): World
      reads this
    {
      World(blobs, scratch, imagenes, errores, trace)
    }

    constructor (w: World)
      ensures State() == w
    {
      blobs, scratch, imagenes, errores, trace := w.blobs, w.scratch, w.imagenes, w.errores, w.trace;
    }

    method Download(env: Env, src: string, dst: string) returns (fault: Option<Error>)
      modifies this
      ensures Step(State(), fault) == DownloadStep(old(State()), env, src, dst)
    {
      if env.download.Some? {
        return env.download;
      }
      if src !in blobs {
        return Some(NoSuchObject(src));
      }
      scratch := scratch[dst := blobs[src]];
      trace := trace + [Downloaded(src, dst)];
      fault := None;
    }

    method Transform(env: Env, src: string, dst: string) returns (fault: Option<Error>)
      requires src in scratch
      modifies this
      ensures Step(State(), fault) == TransformStep(old(State()), env, src, dst)
    {
      var output := env.sharp(scratch[src]);
      if output.Err? {
        return Some(output.error);
      }
      scratch := scratch[dst := output.value];
      trace := trace + [Transformed(src, dst)];
      fault := None;
    }

    method Upload(env: Env, src: string, dst: string, originalFile: string) returns (fault: Option<Error>)
      requires src in scratch
      modifies this
      ensures Step(State(), fault) == UploadStep(old(State()), env, src, dst, originalFile)
    {
      if env.upload.Some? {
        return env.upload;
      }
      blobs := blobs[dst := scratch[src]];
      trace := trace + [Uploaded(src, dst, ThumbnailContentType, originalFile)];
      fault := None;
    }

    method AddImage(env: Env, rec: ImageRecord) returns (fault: Option<Error>)
      modifies this
      ensures Step(State(), fault) == AddImageStep(old(State()), env, rec)
    {
      if env.addImage.Some? {
        return env.addImage;
      }
      imagenes := imagenes + [rec];
      trace := trace + [AddedImage(rec)];
      fault := None;
    }

    method Unlink(injected: Option<Error>, file: string) returns (fault: Option<Error>)
      requires file in scratch
      modifies this
      ensures Step(State(), fault) == UnlinkStep(old(State()), injected, file)
    {
      if injected.Some? {
        return injected;
      }
      scratch := scratch - {file};
      trace := trace + [Unlinked(file)];
      fault := None;
    }

    method AddError(env: Env, rec: ErrorRecord)
      modifies this
      ensures State() == AddErrorStep(old(State()), env, rec)
    {
      if env.addError.None? {
        errores := errores + [rec];
        trace := trace + [AddedError(rec)];
      }
    }

    /** The `try` block: download, transform, upload, two signed URLs, the
        `imagenes` record and the two unlinks, stopping at the first error. */
    method TryBlockSteps(env: Env, filePath: string, contentType: string, ps: Paths)
      returns (fault: Option<Error>)
      requires ps.tempLocalFile != ps.tempLocalThumbFile
      modifies this
      ensures Step(State(), fault) == TryBlock(old(State()), env, filePath, contentType, ps)
    {
      fault := Download(env, filePath, ps.tempLocalFile);
      if fault.Some? {
        return;
      }
      fault := Transform(env, ps.tempLocalFile, ps.tempLocalThumbFile);
      if fault.Some? {
        return;
      }
      fault := Upload(env, ps.tempLocalThumbFile, ps.thumbnailFilePath, filePath);
      if fault.Some? {
        return;
      }
      if env.originalUrl.Err? {
        return Some(env.originalUrl.error);
      }
      var originalUrl := env.originalUrl.value;
      if env.thumbnailUrl.Err? {
        return Some(env.thumbnailUrl.error);
      }
      var thumbnailUrl := env.thumbnailUrl.value;
      var rec := ImageRecord(ps.fileName, originalUrl, thumbnailUrl, filePath, ps.thumbnailFilePath,
                             contentType, UploadedBy, StatusProcessed, ThumbnailWidth, ThumbnailHeight);
      fault := AddImage(env, rec);
      if fault.Some? {
        return;
      }
      fault := Unlink(env.unlinkInput, ps.tempLocalFile);
      if fault.Some? {
        return;
      }
      fault := Unlink(env.unlinkThumb, ps.tempLocalThumbFile);
    }

    /** The catch block's cleanup: unlink each scratch file that exists; the
        first failure ends the cleanup and is swallowed. */
    method CleanupSteps(env: Env, ps: Paths)
      modifies this
      ensures State() == Cleanup(old(State()), env, ps)
    {
      if ps.tempLocalFile in scratch {
        var fault := Unlink(env.cleanupInput, ps.tempLocalFile);
        if fault.Some? {
          return;
        }
      }
      if ps.tempLocalThumbFile in scratch {
        var _ := Unlink(env.cleanupThumb, ps.tempLocalThumbFile);
      }
    }

    /** `generateThumbnail` for the upload `obj`; `tmpDir` is `os.tmpdir()`. */
    method GenerateThumbnail(env: Env, obj: ObjectDescriptor, tmpDir: string) returns (out: Outcome)
      modifies this
      ensures Invocation(State(), out) == Handle(old(State()), env, obj, tmpDir)
      ensures out.Skipped? ==> State() == old(State())
      ensures out.Processed? ==> out.thumbnailPath == Destination(obj.name)
    {
      var filePath := obj.name;
      var contentType := obj.contentType;
      var fileName := BaseName(filePath);
      var fileDir := DirName(filePath);

      if contentType.None? || !StartsWith(contentType.value, ImagePrefix) {
        return Skipped;
      }
      if Contains(fileDir, ThumbnailFolder) {
        return Skipped;
      }
      if StartsWith(fileName, ThumbnailPrefix) {
        return Skipped;
      }

      var ps := DerivePaths(filePath, tmpDir);
      var fault := TryBlockSteps(env, filePath, contentType.value, ps);
      if fault.None? {
        return Processed(filePath, ps.thumbnailFilePath);
      }
      var error := fault.value;
      CleanupSteps(env, ps);
      AddError(env, ErrorRecord(fileName, filePath, error.message));
      out := Threw(error);
    }
  }
}
