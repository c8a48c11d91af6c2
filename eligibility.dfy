/**
 * The three checks that run before any work is done (functions/index.js:89-104).
 * They are evaluated in order and the first one that fails decides the verdict;
 * every verdict other than `Eligible` makes the handler return `null`.
 */
module Eligibility {
  import opened Wrappers
  import opened StoragePaths

  /** Prefix of an image content type. */
  const ImagePrefix: string := "image/"

  datatype Verdict =
    | NotAnImage          // content type missing or not "image/..."
    | InThumbnailFolder   // the directory mentions the thumbnail folder
    | HasThumbnailPrefix  // the file name carries the thumbnail marker
    | Eligible

  /** The guard as a pure function of the content type and the object path:
      it has no effects, so evaluating it again gives the same verdict. */
  function Guard(contentType: Option<string>, filePath: string): (v: Verdict)
    ensures v == NotAnImage <==>
              contentType.None? ||
              !(|ImagePrefix| <= |contentType.value| && contentType.value[..|ImagePrefix|] == ImagePrefix)
    ensures v == InThumbnailFolder <==>
              v != NotAnImage && exists i :: OccursAt(DirName(filePath), ThumbnailFolder, i)
    ensures v == HasThumbnailPrefix <==>
              v != NotAnImage && v != InThumbnailFolder &&
              |ThumbnailPrefix| <= |BaseName(filePath)| &&
              BaseName(filePath)[..|ThumbnailPrefix|] == ThumbnailPrefix
  {
    if contentType.None? || !StartsWith(contentType.value, ImagePrefix) then NotAnImage
    else if Contains(DirName(filePath), ThumbnailFolder) then InThumbnailFolder
    else if StartsWith(BaseName(filePath), ThumbnailPrefix) then HasThumbnailPrefix
    else Eligible
  }

  /** Anti-recursion: the thumbnail the handler writes is itself refused by
      the guard, whatever content type its upload event reports. Both the
      folder check and the name check reject it on their own. */
  lemma DestinationRejected(contentType: Option<string>, filePath: string)
    ensures Guard(contentType, Destination(filePath)) != Eligible
    ensures Contains(DirName(Destination(filePath)), ThumbnailFolder)
    ensures StartsWith(BaseName(Destination(filePath)), ThumbnailPrefix)
  {
    var dest := Destination(filePath);
    DestinationSplits(filePath);
    assert OccursAt(DirName(dest), ThumbnailFolder, 0);
    assert BaseName(dest)[..|ThumbnailPrefix|] == ThumbnailPrefix;
  }
}
