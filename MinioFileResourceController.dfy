/**
 * FileResourceController (com.minio): the content type of an uploaded file.
 * The type comes from the file's extension, or from a content detector
 * whose generic answers give way to a more specific extension type.
 * The detector (Tika) is outside this model: its answer is a parameter,
 * None when it throws.
 */
module MinioFileResources {
  import opened Wrappers
  import opened JavaStrings

  /** MediaType.APPLICATION_OCTET_STREAM */
  const OctetStream: string := "application/octet-stream"

  /** The extensions the switch lists. */
  const KnownExtensions: set<string> := {
    "jpg", "jpeg", "png", "gif", "bmp", "webp", "svg",
    "pdf", "doc", "docx", "xls", "xlsx", "ppt", "pptx", "txt", "html", "htm", "xml", "json",
    "mp3", "wav", "ogg",
    "mp4", "avi", "webm", "mkv",
    "zip", "rar", "7z", "tar", "gz"}

  /** The extension switched on: the lower-cased text after the last '.', or "" when there is no dot or it comes first. */
  function Extension(fileName: string): (r: string)
    ensures LastIndexOf(fileName, '.') <= 0 ==> r == ""
    ensures r != "" ==> |r| == |fileName| - LastIndexOf(fileName, '.') - 1
    ensures '.' !in r
    ensures ToLower(r) == r
  {
    var i := LastIndexOf(fileName, '.');
    if i > 0 then
      var suffix := fileName[i + 1..];
      ToLowerIdempotent(suffix);
      assert forall k :: 0 <= k < |suffix| ==> suffix[k] == fileName[i + 1 + k];
      ToLower(suffix)
    else ""
  }

  /** The switch expression of determineContentTypeFromExtension, one arm per case line. */
  function ExtensionType(extension: string): (r: string)
    ensures r == OctetStream <==> extension !in KnownExtensions
  {
    match extension
    case "jpg" | "jpeg" => "image/jpeg"
    case "png" => "image/png"
    case "gif" => "image/gif"
    case "bmp" => "image/bmp"
    case "webp" => "image/webp"
    case "svg" => "image/svg+xml"
    case "pdf" => "application/pdf"
    case "doc" | "docx" => "application/msword"
    case "xls" | "xlsx" => "application/vnd.ms-excel"
    case "ppt" | "pptx" => "application/vnd.ms-powerpoint"
    case "txt" => "text/plain"
    case "html" | "htm" => "text/html"
    case "xml" => "application/xml"
    case "json" => "application/json"
    case "mp3" => "audio/mpeg"
    case "wav" => "audio/wav"
    case "ogg" => "audio/ogg"
    case "mp4" => "video/mp4"
    case "avi" => "video/x-msvideo"
    case "webm" => "video/webm"
    case "mkv" => "video/x-matroska"
    case "zip" => "application/zip"
    case "rar" => "application/x-rar-compressed"
    case "7z" => "application/x-7z-compressed"
    case "tar" => "application/x-tar"
    case "gz" => "application/gzip"
    case _ => OctetStream
  }

  /** determineContentTypeFromExtension(fileName): octet-stream for a null or empty name. */
  function DetermineContentTypeFromExtension(fileName: Option<string>): (r: string)
    ensures fileName.None? || fileName.value == "" ==> r == OctetStream
    ensures fileName.Some? ==> r == ExtensionType(Extension(fileName.value))
  {
    if fileName.None? || fileName.value == "" then OctetStream
    else ExtensionType(Extension(fileName.value))
  }

  predicate Generic(contentType: string) {
    contentType == OctetStream || contentType == "text/plain"
  }

  /**
   * detectContentType(bytes, fileName), with detected the detector's answer
   * for the bytes, or None when it throws.
   */
  function DetectContentType(detected: Option<string>, fileName: Option<string>): (r: string)
    ensures detected.None? ==> r == DetermineContentTypeFromExtension(fileName)
    ensures detected.Some? && !Generic(detected.value) ==> r == detected.value
    ensures detected.Some? && Generic(detected.value) ==>
              r == if DetermineContentTypeFromExtension(fileName) != OctetStream
                   then DetermineContentTypeFromExtension(fileName) else detected.value
  {
    if detected.None? then DetermineContentTypeFromExtension(fileName)
    else if Generic(detected.value) && DetermineContentTypeFromExtension(fileName) != OctetStream then
      DetermineContentTypeFromExtension(fileName)
    else detected.value
  }

  /** The result is octet-stream only when neither the detector nor the extension knows better. */
  lemma OctetStreamIsLastResort(detected: Option<string>, fileName: Option<string>)
    ensures DetectContentType(detected, fileName) == OctetStream <==>
      DetermineContentTypeFromExtension(fileName) == OctetStream && (detected.None? || detected.value == OctetStream)
  {
  }

  // ---------------------------------------------------------------------
  // The extension

  /** '.' does not lower-case to anything else, so lower-casing keeps the last dot in place. */
  lemma {:induction false} LastDotIgnoresCase(s: string)
    ensures LastIndexOf(ToLower(s), '.') == LastIndexOf(s, '.')
  {
    if |s| > 0 {
      var t := s[..|s| - 1];
      assert ToLower(s)[..|s| - 1] == ToLower(t);
      LastDotIgnoresCase(t);
    }
  }

  /** Lower-casing commutes with taking a suffix. */
  lemma LowerSuffix(s: string, j: nat)
    requires j <= |s|
    ensures ToLower(s)[j..] == ToLower(s[j..])
  {
    assert forall k :: 0 <= k < |s| - j ==> ToLower(s)[j..][k] == ToLower(s[j..])[k];
  }

  /** The extension of a lower-cased name is the extension of the name. */
  lemma ExtensionIgnoresCase(fileName: string)
    ensures Extension(ToLower(fileName)) == Extension(fileName)
  {
    LastDotIgnoresCase(fileName);
    var i := LastIndexOf(fileName, '.');
    if i > 0 {
      var tail := fileName[i + 1..];
      LowerSuffix(fileName, i + 1);
      ToLowerIdempotent(tail);
    }
  }

  /** The type depends on the name only up to case: "A.JPG" is typed as "a.jpg" is. */
  lemma CaseInsensitive(fileName: string)
    ensures DetermineContentTypeFromExtension(Some(ToLower(fileName))) == DetermineContentTypeFromExtension(Some(fileName))
  {
    ExtensionIgnoresCase(fileName);
  }

  /** Only the text after the last dot counts, lower-cased. */
  lemma LastExtensionCounts(stem: string, extension: string)
    requires stem != [] && '.' !in extension
    ensures DetermineContentTypeFromExtension(Some(stem + "." + extension)) == ExtensionType(ToLower(extension))
  {
    var s := stem + "." + extension;
    assert s[|stem|] == '.';
    assert forall k :: |stem| < k < |s| ==> s[k] == extension[k - |stem| - 1];
    assert s[|stem| + 1..] == extension;
  }

  /** A name without a dot, or whose only dot comes first, has no extension. */
  lemma NoExtension(name: string)
    requires '.' !in name
    ensures DetermineContentTypeFromExtension(Some(name)) == OctetStream
    ensures DetermineContentTypeFromExtension(Some("." + name)) == OctetStream
  {
    var s := "." + name;
    assert forall k :: 0 < k < |s| ==> s[k] == name[k - 1];
  }

  /** Matching ignores case: "A.JPG" is a JPEG image. */
  lemma UpperCaseExample()
    ensures DetermineContentTypeFromExtension(Some("A.JPG")) == "image/jpeg"
  {
    var s := "A.JPG";
    assert s[1] == '.' && s[2] == 'J' && s[3] == 'P' && s[4] == 'G';
    assert LastIndexOf(s, '.') == 1;
    assert s[2..] == "JPG";
    assert ToLower("JPG") == "jpg";
  }

  /** Only the last extension counts: "x.tar.gz" is a gzip archive. */
  lemma DoubleExtensionExample()
    ensures DetermineContentTypeFromExtension(Some("x.tar.gz")) == "application/gzip"
  {
    var s := "x.tar.gz";
    assert s[5] == '.' && s[6] == 'g' && s[7] == 'z';
    assert LastIndexOf(s, '.') == 5;
    assert s[6..] == "gz";
    assert ToLower("gz") == "gz";
  }

  /** "noext" and ".bashrc" have no extension, "file.xyz" an unlisted one. */
  lemma OctetStreamExamples()
    ensures DetermineContentTypeFromExtension(Some("noext")) == OctetStream
    ensures DetermineContentTypeFromExtension(Some(".bashrc")) == OctetStream
    ensures DetermineContentTypeFromExtension(Some("file.xyz")) == OctetStream
  {
    assert LastIndexOf("noext", '.') == -1;
    assert ".bashrc"[0] == '.';
    assert LastIndexOf(".bashrc", '.') == 0;
    var s := "file.xyz";
    assert s[4] == '.' && s[5] == 'x' && s[6] == 'y' && s[7] == 'z';
    assert LastIndexOf(s, '.') == 4;
    assert s[5..] == "xyz";
    assert ToLower("xyz") == "xyz";
  }

  /** Synonymous extensions share a type. */
  lemma Synonyms()
    ensures ExtensionType("jpg") == ExtensionType("jpeg")
    ensures ExtensionType("doc") == ExtensionType("docx")
    ensures ExtensionType("xls") == ExtensionType("xlsx")
    ensures ExtensionType("ppt") == ExtensionType("pptx")
    ensures ExtensionType("html") == ExtensionType("htm")
  {
  }
}
