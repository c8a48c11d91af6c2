/**
 * The string operations the handler applies to storage paths: JavaScript's
 * `startsWith` and `includes`, Node's `path.basename` and `path.dirname` on
 * slash-separated paths without a trailing slash, and the derivation of the
 * two scratch paths and the remote thumbnail path (functions/index.js).
 */
module StoragePaths {
  import opened Wrappers

  /** Folder that holds the generated thumbnails. */
  const ThumbnailFolder: string := "thumbnails"
  /** File-name marker that identifies a thumbnail. */
  const ThumbnailPrefix: string := "thumb_"

  /** `s.startsWith(prefix)`, compared character by character. */
  function StartsWith(s: string, prefix: string): (r: bool)
    ensures r <==> |prefix| <= |s| && s[..|prefix|] == prefix
  {
    if prefix == [] then true
    else if s == [] then false
    else
      assert |prefix| <= |s| ==> s[..|prefix|] == [s[0]] + s[1..][..|prefix| - 1];
      assert prefix == [prefix[0]] + prefix[1..];
      s[0] == prefix[0] && StartsWith(s[1..], prefix[1..])
  }

  /** `part` occurs in `s` starting at position `i`. */
  ghost predicate OccursAt(s: string, part: string, i: int) {
    0 <= i && i + |part| <= |s| && s[i..i + |part|] == part
  }

  /** `s.includes(part)`: tries every starting position from the left. */
  function Contains(s: string, part: string): (r: bool)
    ensures r <==> exists i :: OccursAt(s, part, i)
    decreases |s|
  {
    if |s| < |part| then
      assert forall i :: !OccursAt(s, part, i);
      false
    else if StartsWith(s, part) then
      assert OccursAt(s, part, 0);
      true
    else
      var rest := Contains(s[1..], part);
      assert forall i :: OccursAt(s[1..], part, i) <==> OccursAt(s, part, i + 1) by {
        forall i ensures OccursAt(s[1..], part, i) <==> OccursAt(s, part, i + 1) {
          if 0 <= i && i + |part| <= |s| - 1 {
            assert s[1..][i..i + |part|] == s[i + 1..i + 1 + |part|];
          }
        }
      }
      assert rest ==> exists i :: OccursAt(s, part, i) by {
        if rest {
          var i :| OccursAt(s[1..], part, i);
          assert OccursAt(s, part, i + 1);
        }
      }
      assert (exists i :: OccursAt(s, part, i)) ==> rest by {
        if exists i :: OccursAt(s, part, i) {
          var i :| OccursAt(s, part, i);
          assert i != 0;
          assert OccursAt(s[1..], part, i - 1);
        }
      }
      rest
  }

  /** Position of the last `/` in `p`, if there is one. */
  function LastSlash(p: string): (r: Option<nat>)
    ensures r.Some? ==> r.value < |p| && p[r.value] == '/' &&
                        forall j :: r.value < j < |p| ==> p[j] != '/'
    ensures r.None? ==> '/' !in p
  {
    if p == [] then None
    else if p[|p| - 1] == '/' then Some(|p| - 1)
    else
      var r := LastSlash(p[..|p| - 1]);
      assert p == p[..|p| - 1] + [p[|p| - 1]];
      r
  }

  /** `path.basename(p)`: the text after the last `/`. It is the longest
      suffix of `p` without a slash. */
  function BaseName(p: string): (r: string)
    ensures '/' !in r
    ensures |r| <= |p| && r == p[|p| - |r|..]
    ensures |r| < |p| ==> p[|p| - |r| - 1] == '/'
  {
    match LastSlash(p)
    case None => p
    case Some(i) => p[i + 1..]
  }

  /** `path.dirname(p)`: the text before the last `/`, `"/"` when that slash
      is the first character, and `"."` when there is no slash. */
  function DirName(p: string): (r: string)
    ensures '/' !in p ==> r == "."
    ensures '/' in p ==>
              if p == "/" + BaseName(p) then r == "/" else p == r + "/" + BaseName(p)
  {
    match LastSlash(p)
    case None => "."
    case Some(i) =>
      assert p == p[..i] + "/" + p[i + 1..];
      if i == 0 then "/" else p[..i]
  }

  /** `path.join(dir, name)` for a non-empty `dir` and a single-segment `name`. */
  function Join(dir: string, name: string): string {
    dir + "/" + name
  }

  /** Base name and directory of a path built by `Join`. */
  lemma JoinSplits(dir: string, name: string)
    requires dir != [] && '/' !in name
    ensures BaseName(Join(dir, name)) == name
    ensures DirName(Join(dir, name)) == dir
  {
    var p := Join(dir, name);
    var b := BaseName(p);
    assert p[|p| - |name| - 1] == '/';
    assert b == name;
    assert '/' in p;
  }

  /** The paths the handler computes once it has accepted an upload
      (functions/index.js:77-78, 119-128). */
  datatype Paths = Paths(
    fileName: string,           // path.basename(filePath)
    tempLocalFile: string,      // scratch copy of the original
    thumbnailFileName: string,  // "thumb_" + fileName
    tempLocalThumbFile: string, // scratch copy of the thumbnail
    thumbnailFilePath: string)  // destination in the blob store

  /** `path.join("thumbnails", "thumb_" + basename)`: the remote destination
      of the thumbnail of `filePath`. */
  function Destination(filePath: string): string {
    Join(ThumbnailFolder, ThumbnailPrefix + BaseName(filePath))
  }

  /** The destination lies in the thumbnail folder and its file name is the
      original's with the thumbnail marker in front. */
  lemma DestinationSplits(filePath: string)
    ensures DirName(Destination(filePath)) == ThumbnailFolder
    ensures BaseName(Destination(filePath)) == ThumbnailPrefix + BaseName(filePath)
  {
    JoinSplits(ThumbnailFolder, ThumbnailPrefix + BaseName(filePath));
  }

  /** All paths of one invocation; `tmpDir` is `os.tmpdir()`. The two scratch
      paths never coincide, so unlinking one never removes the other. */
  function DerivePaths(filePath: string, tmpDir: string): (ps: Paths)
    ensures ps.fileName == BaseName(filePath)
    ensures ps.thumbnailFileName == ThumbnailPrefix + ps.fileName
    ensures ps.tempLocalFile == Join(tmpDir, ps.fileName)
    ensures ps.tempLocalThumbFile == Join(tmpDir, ps.thumbnailFileName)
    ensures ps.tempLocalFile != ps.tempLocalThumbFile
    ensures ps.thumbnailFilePath == Destination(filePath)
  {
    var fileName := BaseName(filePath);
    var thumbnailFileName := ThumbnailPrefix + fileName;
    Paths(fileName, Join(tmpDir, fileName), thumbnailFileName,
          Join(tmpDir, thumbnailFileName), Join(ThumbnailFolder, thumbnailFileName))
  }

  /** Both scratch files sit directly in the temporary directory, under the
      original's file name and the thumbnail's file name. */
  lemma ScratchPathsSplit(filePath: string, tmpDir: string)
    requires tmpDir != []
    ensures DirName(DerivePaths(filePath, tmpDir).tempLocalFile) == tmpDir
    ensures DirName(DerivePaths(filePath, tmpDir).tempLocalThumbFile) == tmpDir
    ensures BaseName(DerivePaths(filePath, tmpDir).tempLocalFile) == BaseName(filePath)
    ensures BaseName(DerivePaths(filePath, tmpDir).tempLocalThumbFile) == ThumbnailPrefix + BaseName(filePath)
  {
    var name := BaseName(filePath);
    JoinSplits(tmpDir, name);
    JoinSplits(tmpDir, ThumbnailPrefix + name);
  }

  /** The destination depends on the base name only: uploads with the same
      file name in different folders share one thumbnail path. */
  lemma DestinationIgnoresFolder(p: string, q: string)
    requires BaseName(p) == BaseName(q)
    ensures Destination(p) == Destination(q)
  {
  }
}
