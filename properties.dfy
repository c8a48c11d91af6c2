/**
 * What an invocation of `generateThumbnail` guarantees, stated over the
 * reference function `Handle` (which `Backend.GenerateThumbnail` is proved
 * to implement). The lemmas about the `try` block and the cleanup come
 * first; the lemmas about whole invocations are built from them.
 */
module ThumbnailProperties {
  import opened Wrappers
  import opened StoragePaths
  import opened Eligibility
  import opened ThumbnailSpec

  /** The two scratch files of an invocation. */
  function ScratchFiles(ps: Paths): set<string> {
    {ps.tempLocalFile, ps.tempLocalThumbFile}
  }

  // ---------------------------------------------------------------------
  // The try block

  /** The `try` block throws exactly the error of its first failing call. */
  lemma TryBlockFault(w: World, env: Env, filePath: string, contentType: string, ps: Paths)
    requires ps.tempLocalFile != ps.tempLocalThumbFile
    ensures TryBlock(w, env, filePath, contentType, ps).fault == FirstFault(w, env, filePath)
  {
  }

  /** The `try` block never writes `errores` and touches no scratch file
      other than its own two. */
  lemma TryBlockFrame(w: World, env: Env, filePath: string, contentType: string, ps: Paths)
    requires ps.tempLocalFile != ps.tempLocalThumbFile
    ensures
      var w' := TryBlock(w, env, filePath, contentType, ps).world;
      && w'.errores == w.errores
      && w'.scratch - ScratchFiles(ps) == w.scratch - ScratchFiles(ps)
  {
    var files := ScratchFiles(ps);
    var d := DownloadStep(w, env, filePath, ps.tempLocalFile);
    if d.fault.Some? { return; }
    assert d.world.scratch - files == w.scratch - files;
    var t := TransformStep(d.world, env, ps.tempLocalFile, ps.tempLocalThumbFile);
    if t.fault.Some? { return; }
    assert t.world.scratch - files == w.scratch - files;
    var u := UploadStep(t.world, env, ps.tempLocalThumbFile, ps.thumbnailFilePath, filePath);
    if u.fault.Some? || env.originalUrl.Err? || env.thumbnailUrl.Err? { return; }
    var rec := ImageRecordFor(filePath, contentType, ps, env.originalUrl.value, env.thumbnailUrl.value);
    var a := AddImageStep(u.world, env, rec);
    if a.fault.Some? { return; }
    var x := UnlinkStep(a.world, env.unlinkInput, ps.tempLocalFile);
    assert x.world.scratch - files == w.scratch - files;
    if x.fault.Some? { return; }
    var y := UnlinkStep(x.world, env.unlinkThumb, ps.tempLocalThumbFile);
    assert y.world.scratch - files == w.scratch - files;
  }

  /** A `try` block that completes stores the thumbnail, appends one record,
      removes both scratch files and records its effects in program order. */
  lemma TryBlockSuccess(w: World, env: Env, filePath: string, contentType: string, ps: Paths)
    requires ps.tempLocalFile != ps.tempLocalThumbFile
    requires TryBlock(w, env, filePath, contentType, ps).fault.None?
    ensures filePath in w.blobs && env.sharp(w.blobs[filePath]).Ok?
    ensures env.originalUrl.Ok? && env.thumbnailUrl.Ok?
    ensures
      var w' := TryBlock(w, env, filePath, contentType, ps).world;
      var thumb := env.sharp(w.blobs[filePath]).value;
      var rec := ImageRecordFor(filePath, contentType, ps, env.originalUrl.value, env.thumbnailUrl.value);
      && w'.blobs == w.blobs[ps.thumbnailFilePath := thumb]
      && w'.imagenes == w.imagenes + [rec]
      && w'.errores == w.errores
      && w'.scratch == w.scratch - ScratchFiles(ps)
      && w'.trace == w.trace + [Downloaded(filePath, ps.tempLocalFile),
                                Transformed(ps.tempLocalFile, ps.tempLocalThumbFile),
                                Uploaded(ps.tempLocalThumbFile, ps.thumbnailFilePath,
                                         ThumbnailContentType, filePath),
                                AddedImage(rec),
                                Unlinked(ps.tempLocalFile),
                                Unlinked(ps.tempLocalThumbFile)]
  {
    var thumb := env.sharp(w.blobs[filePath]).value;
    var s := w.scratch[ps.tempLocalFile := w.blobs[filePath]][ps.tempLocalThumbFile := thumb];
    var w' := TryBlock(w, env, filePath, contentType, ps).world;
    assert w'.scratch == s - {ps.tempLocalFile} - {ps.tempLocalThumbFile};
  }

  /** The `try` block appends an `imagenes` record only after the download,
      the transform, the upload and both signed URLs succeeded; the upload to
      the record's path comes right before the record in the trace. */
  lemma TryBlockRecord(w: World, env: Env, filePath: string, contentType: string, ps: Paths)
    requires ps.tempLocalFile != ps.tempLocalThumbFile
    ensures
      var w' := TryBlock(w, env, filePath, contentType, ps).world;
      w'.imagenes == w.imagenes ||
      (
        && env.download.None? && filePath in w.blobs
        && env.sharp(w.blobs[filePath]).Ok? && env.upload.None?
        && env.originalUrl.Ok? && env.thumbnailUrl.Ok? && env.addImage.None?
        && var rec := ImageRecordFor(filePath, contentType, ps,
                                     env.originalUrl.value, env.thumbnailUrl.value);
        && w'.imagenes == w.imagenes + [rec]
        && |w'.trace| >= |w.trace| + 4
        && w'.trace[|w.trace| + 2] == Uploaded(ps.tempLocalThumbFile, rec.thumbnailPath,
                                               ThumbnailContentType, filePath)
        && w'.trace[|w.trace| + 3] == AddedImage(rec)
        && rec.thumbnailPath in w'.blobs
        && w'.blobs[rec.thumbnailPath] == env.sharp(w.blobs[filePath]).value
      )
  {
  }

  // ---------------------------------------------------------------------
  // The catch block

  /** The cleanup touches only the two scratch files; it removes both when
      its unlinks succeed, and a failed first unlink stops it with nothing
      changed. */
  lemma CleanupEffect(w: World, env: Env, ps: Paths)
    requires ps.tempLocalFile != ps.tempLocalThumbFile
    ensures
      var c := Cleanup(w, env, ps);
      && c.blobs == w.blobs && c.imagenes == w.imagenes && c.errores == w.errores
      && c.scratch - ScratchFiles(ps) == w.scratch - ScratchFiles(ps)
      && (env.cleanupInput.None? && env.cleanupThumb.None? ==>
            ps.tempLocalFile !in c.scratch && ps.tempLocalThumbFile !in c.scratch)
      && (env.cleanupInput.Some? && ps.tempLocalFile in w.scratch ==> c == w)
      && |c.trace| >= |w.trace| && c.trace[..|w.trace|] == w.trace
  {
    var excluded := ScratchFiles(ps);
    if ps.tempLocalFile in w.scratch {
      assert w.scratch - {ps.tempLocalFile} - excluded == w.scratch - excluded;
    }
    var first := if ps.tempLocalFile in w.scratch
                 then UnlinkStep(w, env.cleanupInput, ps.tempLocalFile)
                 else Step(w, None);
    if first.fault.None? && ps.tempLocalThumbFile in first.world.scratch {
      assert first.world.scratch - {ps.tempLocalThumbFile} - excluded == first.world.scratch - excluded;
    }
  }

  /** The catch block leaves the blob store and `imagenes` alone and only
      extends the trace. */
  lemma CatchBlockFrame(w: World, env: Env, filePath: string, ps: Paths, e: Error)
    requires ps.tempLocalFile != ps.tempLocalThumbFile
    ensures
      var c := CatchBlock(w, env, filePath, ps, e);
      && c.blobs == w.blobs && c.imagenes == w.imagenes
      && |c.trace| >= |w.trace| && c.trace[..|w.trace|] == w.trace
  {
    CleanupEffect(w, env, ps);
    var c := Cleanup(w, env, ps);
    assert c.trace + [AddedError(ErrorRecord(ps.fileName, filePath, e.message))]
             == w.trace + c.trace[|w.trace|..] + [AddedError(ErrorRecord(ps.fileName, filePath, e.message))];
  }

  // ---------------------------------------------------------------------
  // Whole invocations

  /** A refused upload returns `null` and touches nothing: no download,
      scratch file, upload or ledger write (functions/index.js:89-104). */
  lemma RefusedUploadHasNoEffect(w: World, env: Env, obj: ObjectDescriptor, tmpDir: string)
    requires Guard(obj.contentType, obj.name) != Eligible
    ensures Handle(w, env, obj, tmpDir) == Invocation(w, Skipped)
  {
  }

  /** Anti-recursion: the upload event of a thumbnail the handler wrote is a
      no-op, whatever its content type and whatever the oracles do. */
  lemma ThumbnailUploadIsSkipped(w: World, env: Env, filePath: string,
                                 contentType: Option<string>, tmpDir: string)
    ensures Handle(w, env, ObjectDescriptor(Destination(filePath), contentType), tmpDir)
            == Invocation(w, Skipped)
  {
    DestinationRejected(contentType, filePath);
  }

  /** The outcome is decided by the guard and the `try` block alone: skipped,
      the error of the first failing call, or success with the destination. */
  lemma OutcomeIsFirstFailure(w: World, env: Env, obj: ObjectDescriptor, tmpDir: string)
    ensures Handle(w, env, obj, tmpDir).outcome == ExpectedOutcome(w, env, obj)
  {
    if Guard(obj.contentType, obj.name) == Eligible {
      var ps := DerivePaths(obj.name, tmpDir);
      var t := TryBlock(w, env, obj.name, obj.contentType.value, ps);
      TryBlockFault(w, env, obj.name, obj.contentType.value, ps);
      assert Handle(w, env, obj, tmpDir).outcome
             == if t.fault.None? then Processed(obj.name, ps.thumbnailFilePath) else Threw(t.fault.value);
    }
  }

  /** The original error wins: failures of the cleanup unlinks or of the
      `errores` write never change what the invocation throws. */
  lemma OriginalErrorWins(w: World, env: Env, obj: ObjectDescriptor, tmpDir: string,
                          cleanupInput: Option<Error>, cleanupThumb: Option<Error>,
                          addError: Option<Error>)
    ensures Handle(w, env.(cleanupInput := cleanupInput, cleanupThumb := cleanupThumb,
                           addError := addError), obj, tmpDir).outcome
            == Handle(w, env, obj, tmpDir).outcome
  {
    var env' := env.(cleanupInput := cleanupInput, cleanupThumb := cleanupThumb, addError := addError);
    calc {
      Handle(w, env', obj, tmpDir).outcome;
      { OutcomeIsFirstFailure(w, env', obj, tmpDir); }
      ExpectedOutcome(w, env', obj);
      { assert FirstFault(w, env', obj.name) == FirstFault(w, env, obj.name); }
      ExpectedOutcome(w, env, obj);
      { OutcomeIsFirstFailure(w, env, obj, tmpDir); }
      Handle(w, env, obj, tmpDir).outcome;
    }
  }

  /** The complete effect of a successful invocation: the thumbnail stored at
      its destination, one `imagenes` record describing it, both scratch
      files gone, nothing in `errores`, and the effects in program order
      (functions/index.js:140-252). */
  lemma SuccessfulInvocation(w: World, env: Env, obj: ObjectDescriptor, tmpDir: string)
    requires Handle(w, env, obj, tmpDir).outcome.Processed?
    ensures obj.contentType.Some? && obj.name in w.blobs
    ensures env.sharp(w.blobs[obj.name]).Ok? && env.originalUrl.Ok? && env.thumbnailUrl.Ok?
    ensures
      var w' := Handle(w, env, obj, tmpDir).world;
      var ps := DerivePaths(obj.name, tmpDir);
      var dest := Destination(obj.name);
      var rec := ImageRecordFor(obj.name, obj.contentType.value, ps,
                                env.originalUrl.value, env.thumbnailUrl.value);
      && Handle(w, env, obj, tmpDir).outcome == Processed(obj.name, dest)
      && rec.fileName == BaseName(obj.name) && rec.originalPath == obj.name
      && rec.thumbnailPath == dest && rec.status == "PROCESADO"
      && rec.width == 200 && rec.height == 200
      && w'.blobs == w.blobs[dest := env.sharp(w.blobs[obj.name]).value]
      && w'.imagenes == w.imagenes + [rec]
      && w'.errores == w.errores
      && w'.scratch == w.scratch - ScratchFiles(ps)
      && w'.trace == w.trace + [Downloaded(obj.name, ps.tempLocalFile),
                                Transformed(ps.tempLocalFile, ps.tempLocalThumbFile),
                                Uploaded(ps.tempLocalThumbFile, dest, "image/jpeg", obj.name),
                                AddedImage(rec),
                                Unlinked(ps.tempLocalFile),
                                Unlinked(ps.tempLocalThumbFile)]
  {
    TryBlockSuccess(w, env, obj.name, obj.contentType.value, DerivePaths(obj.name, tmpDir));
  }

  /** Stored before recorded: at most one `imagenes` record is appended, only
      after the download, the transform, the upload and both signed URLs
      succeeded; the upload of the thumbnail to the record's path comes right
      before the record in the trace, and the thumbnail is still stored when
      the invocation ends (functions/index.js:140-222). */
  lemma RecordedOnlyAfterStored(w: World, env: Env, obj: ObjectDescriptor, tmpDir: string)
    ensures
      var w' := Handle(w, env, obj, tmpDir).world;
      w'.imagenes == w.imagenes ||
      (
        && Guard(obj.contentType, obj.name) == Eligible
        && env.download.None? && obj.name in w.blobs
        && env.sharp(w.blobs[obj.name]).Ok? && env.upload.None?
        && env.originalUrl.Ok? && env.thumbnailUrl.Ok? && env.addImage.None?
        && var rec := ImageRecordFor(obj.name, obj.contentType.value, DerivePaths(obj.name, tmpDir),
                                     env.originalUrl.value, env.thumbnailUrl.value);
        && w'.imagenes == w.imagenes + [rec]
        && rec.thumbnailPath == Destination(obj.name)
        && |w'.trace| >= |w.trace| + 4
        && w'.trace[|w.trace| + 2].Uploaded?
        && w'.trace[|w.trace| + 2].destination == rec.thumbnailPath
        && w'.trace[|w.trace| + 2].contentType == "image/jpeg"
        && w'.trace[|w.trace| + 3] == AddedImage(rec)
        && rec.thumbnailPath in w'.blobs
        && w'.blobs[rec.thumbnailPath] == env.sharp(w.blobs[obj.name]).value
      )
  {
    if Guard(obj.contentType, obj.name) == Eligible {
      var ps := DerivePaths(obj.name, tmpDir);
      var t := TryBlock(w, env, obj.name, obj.contentType.value, ps);
      TryBlockRecord(w, env, obj.name, obj.contentType.value, ps);
      if t.fault.Some? {
        CatchBlockFrame(t.world, env, obj.name, ps, t.fault.value);
        var c := CatchBlock(t.world, env, obj.name, ps, t.fault.value);
        if t.world.imagenes != w.imagenes {
          assert c.trace[|w.trace| + 2] == c.trace[..|t.world.trace|][|w.trace| + 2];
          assert c.trace[|w.trace| + 3] == c.trace[..|t.world.trace|][|w.trace| + 3];
        }
      }
    }
  }

  /** A failed invocation: at most one `errores` record, naming the file and
      the thrown error's message, written unless that write itself fails;
      the invocation's scratch files are gone when the cleanup unlinks
      succeed; no other scratch file is touched (functions/index.js:254-289). */
  lemma FailedInvocation(w: World, env: Env, obj: ObjectDescriptor, tmpDir: string)
    requires Handle(w, env, obj, tmpDir).outcome.Threw?
    ensures
      var r := Handle(w, env, obj, tmpDir);
      var ps := DerivePaths(obj.name, tmpDir);
      var failure := ErrorRecord(BaseName(obj.name), obj.name, r.outcome.error.message);
      && r.world.errores == (if env.addError.None? then w.errores + [failure] else w.errores)
      && (env.cleanupInput.None? && env.cleanupThumb.None? ==>
            ps.tempLocalFile !in r.world.scratch && ps.tempLocalThumbFile !in r.world.scratch)
      && r.world.scratch - ScratchFiles(ps) == w.scratch - ScratchFiles(ps)
  {
    var ps := DerivePaths(obj.name, tmpDir);
    var t := TryBlock(w, env, obj.name, obj.contentType.value, ps);
    TryBlockFrame(w, env, obj.name, obj.contentType.value, ps);
    CleanupEffect(t.world, env, ps);
  }

  /** A failed `imagenes` write leaves the thumbnail stored but unlisted, and
      its error propagates (functions/index.js:222, 288). */
  lemma LedgerFailureKeepsThumbnail(w: World, env: Env, obj: ObjectDescriptor, tmpDir: string)
    requires Guard(obj.contentType, obj.name) == Eligible
    requires env.download.None? && obj.name in w.blobs && env.sharp(w.blobs[obj.name]).Ok?
    requires env.upload.None? && env.originalUrl.Ok? && env.thumbnailUrl.Ok?
    requires env.addImage.Some?
    ensures
      var r := Handle(w, env, obj, tmpDir);
      && r.outcome == Threw(env.addImage.value)
      && r.world.blobs == w.blobs[Destination(obj.name) := env.sharp(w.blobs[obj.name]).value]
      && r.world.imagenes == w.imagenes
  {
    var ps := DerivePaths(obj.name, tmpDir);
    var t := TryBlock(w, env, obj.name, obj.contentType.value, ps);
    TryBlockFault(w, env, obj.name, obj.contentType.value, ps);
    assert t.fault == env.addImage;
    assert t.world.blobs == w.blobs[ps.thumbnailFilePath := env.sharp(w.blobs[obj.name]).value];
    assert t.world.imagenes == w.imagenes;
    CatchBlockFrame(t.world, env, obj.name, ps, t.fault.value);
  }

  /** A failed unlink of the scratch original comes after the `imagenes`
      write: the record and the stored thumbnail stay, the unlink's error
      propagates and an `errores` record names it as well
      (functions/index.js:222, 233, 254-288). */
  lemma InputUnlinkFailureKeepsRecord(w: World, env: Env, obj: ObjectDescriptor, tmpDir: string)
    requires Guard(obj.contentType, obj.name) == Eligible
    requires env.download.None? && obj.name in w.blobs && env.sharp(w.blobs[obj.name]).Ok?
    requires env.upload.None? && env.originalUrl.Ok? && env.thumbnailUrl.Ok? && env.addImage.None?
    requires env.unlinkInput.Some?
    ensures
      var r := Handle(w, env, obj, tmpDir);
      var rec := ImageRecordFor(obj.name, obj.contentType.value, DerivePaths(obj.name, tmpDir),
                                env.originalUrl.value, env.thumbnailUrl.value);
      var failure := ErrorRecord(BaseName(obj.name), obj.name, env.unlinkInput.value.message);
      && r.outcome == Threw(env.unlinkInput.value)
      && r.world.imagenes == w.imagenes + [rec]
      && r.world.blobs == w.blobs[Destination(obj.name) := env.sharp(w.blobs[obj.name]).value]
      && r.world.errores == (if env.addError.None? then w.errores + [failure] else w.errores)
  {
    var ps := DerivePaths(obj.name, tmpDir);
    var t := TryBlock(w, env, obj.name, obj.contentType.value, ps);
    TryBlockFault(w, env, obj.name, obj.contentType.value, ps);
    assert t.fault == env.unlinkInput;
    var rec := ImageRecordFor(obj.name, obj.contentType.value, ps,
                              env.originalUrl.value, env.thumbnailUrl.value);
    assert t.world.blobs == w.blobs[ps.thumbnailFilePath := env.sharp(w.blobs[obj.name]).value];
    assert t.world.imagenes == w.imagenes + [rec];
    CatchBlockFrame(t.world, env, obj.name, ps, t.fault.value);
    FailedInvocation(w, env, obj, tmpDir);
  }

  /** A failed unlink of the scratch thumbnail, after the original's unlink
      succeeded, likewise keeps the record and the stored thumbnail, and its
      error propagates (functions/index.js:222, 236, 254-288). */
  lemma ThumbUnlinkFailureKeepsRecord(w: World, env: Env, obj: ObjectDescriptor, tmpDir: string)
    requires Guard(obj.contentType, obj.name) == Eligible
    requires env.download.None? && obj.name in w.blobs && env.sharp(w.blobs[obj.name]).Ok?
    requires env.upload.None? && env.originalUrl.Ok? && env.thumbnailUrl.Ok? && env.addImage.None?
    requires env.unlinkInput.None? && env.unlinkThumb.Some?
    ensures
      var r := Handle(w, env, obj, tmpDir);
      var rec := ImageRecordFor(obj.name, obj.contentType.value, DerivePaths(obj.name, tmpDir),
                                env.originalUrl.value, env.thumbnailUrl.value);
      var failure := ErrorRecord(BaseName(obj.name), obj.name, env.unlinkThumb.value.message);
      && r.outcome == Threw(env.unlinkThumb.value)
      && r.world.imagenes == w.imagenes + [rec]
      && r.world.blobs == w.blobs[Destination(obj.name) := env.sharp(w.blobs[obj.name]).value]
      && r.world.errores == (if env.addError.None? then w.errores + [failure] else w.errores)
  {
    var ps := DerivePaths(obj.name, tmpDir);
    var t := TryBlock(w, env, obj.name, obj.contentType.value, ps);
    TryBlockFault(w, env, obj.name, obj.contentType.value, ps);
    assert t.fault == env.unlinkThumb;
    var rec := ImageRecordFor(obj.name, obj.contentType.value, ps,
                              env.originalUrl.value, env.thumbnailUrl.value);
    assert t.world.blobs == w.blobs[ps.thumbnailFilePath := env.sharp(w.blobs[obj.name]).value];
    assert t.world.imagenes == w.imagenes + [rec];
    CatchBlockFrame(t.world, env, obj.name, ps, t.fault.value);
    FailedInvocation(w, env, obj, tmpDir);
  }

  // ---------------------------------------------------------------------
  // Scenarios

  /** "uploads/42_cat.png" splits into the folder "uploads" and the file
      name "42_cat.png". */
  lemma CatPathSplits()
    ensures BaseName("uploads/42_cat.png") == "42_cat.png"
    ensures DirName("uploads/42_cat.png") == "uploads"
  {
    assert "uploads/42_cat.png" == Join("uploads", "42_cat.png");
    JoinSplits("uploads", "42_cat.png");
  }

  /** The guard accepts "uploads/42_cat.png" as a PNG. */
  lemma CatIsEligible()
    ensures Guard(Some("image/png"), "uploads/42_cat.png") == Eligible
  {
    CatPathSplits();
    assert "image/png"[..6] == ImagePrefix;
    assert StartsWith("image/png", ImagePrefix);
    assert !Contains("uploads", ThumbnailFolder);
    assert "42_cat.png"[0] != ThumbnailPrefix[0];
    assert !StartsWith("42_cat.png", ThumbnailPrefix);
  }

  /** The thumbnail of "uploads/42_cat.png" goes to "thumbnails/thumb_42_cat.png". */
  lemma CatDestination()
    ensures Destination("uploads/42_cat.png") == "thumbnails/thumb_42_cat.png"
  {
    assert Join(ThumbnailFolder, ThumbnailPrefix + "42_cat.png") == "thumbnails/thumb_42_cat.png";
    assert BaseName("uploads/42_cat.png") == "42_cat.png" by {
      assert "uploads/42_cat.png" == Join("uploads", "42_cat.png");
      JoinSplits("uploads", "42_cat.png");
    }
  }

  /** Upload of "uploads/42_cat.png" as a PNG with every call succeeding. */
  lemma CatScenario(w: World, env: Env, tmpDir: string)
    requires "uploads/42_cat.png" in w.blobs
    requires env.download.None? && env.sharp(w.blobs["uploads/42_cat.png"]).Ok?
    requires env.upload.None? && env.originalUrl.Ok? && env.thumbnailUrl.Ok?
    requires env.addImage.None? && env.unlinkInput.None? && env.unlinkThumb.None?
    ensures
      var r := Handle(w, env, ObjectDescriptor("uploads/42_cat.png", Some("image/png")), tmpDir);
      && r.outcome == Processed("uploads/42_cat.png", "thumbnails/thumb_42_cat.png")
      && r.world.blobs == w.blobs["thumbnails/thumb_42_cat.png" := env.sharp(w.blobs["uploads/42_cat.png"]).value]
      && |r.world.imagenes| == |w.imagenes| + 1
      && r.world.imagenes[|w.imagenes|].fileName == "42_cat.png"
      && r.world.imagenes[|w.imagenes|].status == "PROCESADO"
  {
    var obj := ObjectDescriptor("uploads/42_cat.png", Some("image/png"));
    CatPathSplits();
    CatIsEligible();
    CatDestination();
    OutcomeIsFirstFailure(w, env, obj, tmpDir);
    SuccessfulInvocation(w, env, obj, tmpDir);
  }

  /** The thumbnail of the cat scenario, uploaded in turn, is a no-op. */
  lemma CatThumbnailScenario(w: World, env: Env, tmpDir: string)
    ensures Handle(w, env, ObjectDescriptor("thumbnails/thumb_42_cat.png", Some("image/png")), tmpDir)
            == Invocation(w, Skipped)
  {
    CatDestination();
    ThumbnailUploadIsSkipped(w, env, "uploads/42_cat.png", Some("image/png"), tmpDir);
  }

  /** A PDF upload is a no-op. */
  lemma PdfScenario(w: World, env: Env, tmpDir: string)
    ensures Handle(w, env, ObjectDescriptor("uploads/doc.pdf", Some("application/pdf")), tmpDir)
            == Invocation(w, Skipped)
  {
    assert "application/pdf"[0] != ImagePrefix[0];
  }

  /** The download throws: the same error propagates, neither scratch file of
      the invocation is left when the cleanup unlinks succeed, and one
      `errores` record with the original path is written when that write
      succeeds. */
  lemma FetchFailsScenario(w: World, env: Env, obj: ObjectDescriptor, tmpDir: string)
    requires Guard(obj.contentType, obj.name) == Eligible
    requires env.download.Some?
    requires env.cleanupInput.None? && env.cleanupThumb.None? && env.addError.None?
    ensures
      var r := Handle(w, env, obj, tmpDir);
      var ps := DerivePaths(obj.name, tmpDir);
      && r.outcome == Threw(env.download.value)
      && ps.tempLocalFile !in r.world.scratch && ps.tempLocalThumbFile !in r.world.scratch
      && |r.world.errores| == |w.errores| + 1
      && r.world.errores[|w.errores|].filePath == obj.name
      && r.world.imagenes == w.imagenes && r.world.blobs == w.blobs
  {
    var ps := DerivePaths(obj.name, tmpDir);
    CleanupEffect(w, env, ps);
  }
}
