/** The storage path an upload is written to: a directory, a fresh UUID and
    an extension chosen from the caller, the content type or the file name. */
module Upload {
  import opened Wrappers
  import opened JsStrings
  import opened SubscriptionServer

  /** What is uploaded: a `File` (with its name) or any other `Blob`; both
      carry a MIME type, the empty string when unknown. */
  datatype Upload = File(name: string, mimeType: string) | Blob(mimeType: string)

  /** The extension guessed from the MIME type, for the five types the
      application produces; none for any other or an empty type. */
  function GuessExtension(mimeType: string): (r: Option<string>)
    ensures r.Some? <==> mimeType in {"image/jpeg", "image/png", "image/webp", "video/webm", "video/mp4"}
    ensures r.Some? ==> (mimeType == "image/jpeg" && r.value == "jpg")
                        || mimeType == "image/" + r.value || mimeType == "video/" + r.value
    ensures mimeType == "image/jpeg" ==> r == Some("jpg")
  {
    if mimeType == "" then None
    else if mimeType == "image/jpeg" then Some("jpg")
    else if mimeType == "image/png" then Some("png")
    else if mimeType == "image/webp" then Some("webp")
    else if mimeType == "video/webm" then Some("webm")
    else if mimeType == "video/mp4" then Some("mp4")
    else None
  }

  /** `name.split('.').pop()`: the text after the last dot, or the whole name
      when it has none. */
  function NameExtension(name: string): (ext: string)
    ensures '.' !in ext
    ensures |ext| <= |name| && name[|name| - |ext|..] == ext
    ensures |ext| == |name| || name[|name| - |ext| - 1] == '.'
  {
    var parts := Split(name, '.');
    SplitLast(name, '.');
    parts[|parts| - 1]
  }

  /** The extension used: the caller's (even an empty one, since only a
      missing extension falls through `??`), else the guess from the type,
      else the file name's, else `bin`. */
  function ChooseExtension(extension: Option<string>, file: Upload): (ext: string)
    ensures extension.Some? ==> ext == extension.value
    ensures extension.None? && GuessExtension(file.mimeType).Some? ==> ext == GuessExtension(file.mimeType).value
    ensures extension.None? && GuessExtension(file.mimeType).None? ==>
              ext == if file.File? then NameExtension(file.name) else "bin"
  {
    match extension
    case Some(e) => e
    case None =>
      match GuessExtension(file.mimeType)
      case Some(g) => g
      case None => if file.File? then NameExtension(file.name) else "bin"
  }

  /** `${dir}/${uuid}.${ext}` with `dir` defaulting to `stories`. */
  function UploadPath(directory: Option<string>, uuid: string, ext: string): (path: string)
    ensures EndsWith(path, "." + ext)
    ensures StartsWith(path, directory.GetOr("stories") + "/")
    ensures |path| == |directory.GetOr("stories")| + |uuid| + |ext| + 2
    ensures path[|directory.GetOr("stories")| + 1..|path| - |ext| - 1] == uuid
  {
    var dir := directory.GetOr("stories");
    var path := dir + "/" + uuid + "." + ext;
    assert path[..|dir| + 1] == dir + "/";
    assert path[|path| - |"." + ext|..] == "." + ext;
    assert path[|dir| + 1..|path| - |ext| - 1] == uuid;
    path
  }

  /** Within one directory and extension, different UUIDs give different
      paths, so uploads with fresh UUIDs never collide. */
  lemma DistinctUuidsDistinctPaths(directory: Option<string>, u1: string, u2: string, ext: string)
    requires u1 != u2
    ensures UploadPath(directory, u1, ext) != UploadPath(directory, u2, ext)
  {
  }

  /** A WebM or MP4 recording uploaded without an explicit extension ends up
      at a path, and behind any URL prefix, that `isVideoUrl` classifies as
      a video; so the story gate counts it against the video limit. */
  lemma RecordedVideoIsVideoUrl(prefix: string, directory: Option<string>, uuid: string, file: Upload)
    requires file.mimeType == "video/webm" || file.mimeType == "video/mp4"
    ensures IsVideoUrl(Some(prefix + UploadPath(directory, uuid, ChooseExtension(None, file))))
  {
    var ext := ChooseExtension(None, file);
    var path := UploadPath(directory, uuid, ext);
    var url := prefix + path;
    EndsWithAppend(prefix, path, "." + ext);
    var suffix := if file.mimeType == "video/webm" then ".webm" else ".mp4";
    assert "." + ext == suffix;
    LowerEndsWith(url, suffix);
    assert EndsWith(Lower(url), suffix);
  }

  /** A dotted file name of unknown type keeps its last extension. */
  lemma DottedNameExample()
    ensures ChooseExtension(None, File("clip.final.MOV", "")) == "MOV"
  {
    var n := "clip.final.MOV";
    var e := NameExtension(n);
    assert n[10] == '.';
    assert n[11..] == "MOV";
  }

  /** An undotted name of unknown type is used whole, a blob of unknown
      type gets `bin`, and an explicit extension beats the type. */
  lemma ChooseExtensionExamples()
    ensures ChooseExtension(None, File("README", "text/plain")) == "README"
    ensures ChooseExtension(None, Blob("")) == "bin"
    ensures ChooseExtension(Some("png"), File("a.jpg", "image/jpeg")) == "png"
  {
    var m := "README";
    var f := NameExtension(m);
    assert '.' !in m;
  }
}
