/**
 * FileResourceController (com.peretyn): the older copy of the content-type
 * logic. The extension is computed as in the com.minio controller, and the
 * switch is a classic statement whose case labels fall through in groups to
 * a shared return. As there, the detector (Tika) is a parameter, None when
 * it throws.
 */
module PeretynFileResources {
  import opened Wrappers
  import opened JavaStrings
  import Minio = MinioFileResources

  /** MediaType.APPLICATION_OCTET_STREAM */
  const OctetStream: string := "application/octet-stream"

  /**
   * The fall-through switch statement: one arm per case label, a label
   * that falls through taking the return of the label group it belongs to;
   * no label matched is the default.
   */
  function ExtensionType(extension: string): (r: string)
    ensures r == OctetStream <==> extension !in Minio.KnownExtensions
  {
    match extension
    case "jpg" => "image/jpeg"
    case "jpeg" => "image/jpeg"
    case "png" => "image/png"
    case "gif" => "image/gif"
    case "bmp" => "image/bmp"
    case "webp" => "image/webp"
    case "svg" => "image/svg+xml"
    case "pdf" => "application/pdf"
    case "doc" => "application/msword"
    case "docx" => "application/msword"
    case "xls" => "application/vnd.ms-excel"
    case "xlsx" => "application/vnd.ms-excel"
    case "ppt" => "application/vnd.ms-powerpoint"
    case "pptx" => "application/vnd.ms-powerpoint"
    case "txt" => "text/plain"
    case "html" => "text/html"
    case "htm" => "text/html"
    case "xml" => "application/xml"
    case "json" => "application/json"
    case "mp3" => "audio/mpeg"
    case "wav" => "audio/wav"
    case "ogg" => "audio/ogg"
    case "mp4" => "video/mp4"
    case "avi" => "video/x-msvideo"
    case "webm" => "video/webm"
    case "mkv" => "video/x-matroska"
    case "zip" => "application/zip"
    case "rar" => "application/x-rar-compressed"
    case "7z" => "application/x-7z-compressed"
    case "tar" => "application/x-tar"
    case "gz" => "application/gzip"
    case _ => OctetStream
  }

  /** determineContentTypeFromExtension(fileName): octet-stream for a null or empty name. */
  function DetermineContentTypeFromExtension(fileName: Option<string>): (r: string)
    ensures fileName.None? || fileName.value == "" ==> r == OctetStream
    ensures fileName.Some? ==> r == ExtensionType(Minio.Extension(fileName.value))
  {
    if fileName.None? || fileName.value == "" then OctetStream
    else ExtensionType(Minio.Extension(fileName.value))
  }

  /**
   * detectContentType(bytes, fileName), with detected the detector's answer
   * for the bytes, or None when it throws.
   */
  function DetectContentType(detected: Option<string>, fileName: Option<string>): (r: string)
    ensures detected.None? ==> r == DetermineContentTypeFromExtension(fileName)
    ensures detected.Some? && !Minio.Generic(detected.value) ==> r == detected.value
    ensures detected.Some? && Minio.Generic(detected.value) ==>
              r == if DetermineContentTypeFromExtension(fileName) != OctetStream
                   then DetermineContentTypeFromExtension(fileName) else detected.value
  {
    if detected.None? then DetermineContentTypeFromExtension(fileName)
    else if Minio.Generic(detected.value) && DetermineContentTypeFromExtension(fileName) != OctetStream then
      DetermineContentTypeFromExtension(fileName)
    else detected.value
  }

  /** The fall-through table and the com.minio switch expression give every extension the same type. */
  lemma ExtensionTablesAgree(extension: string)
    ensures ExtensionType(extension) == Minio.ExtensionType(extension)
  {
  }

  /** The two controllers type every upload alike, whatever the detector answers. */
  lemma AgreesWithMinio(detected: Option<string>, fileName: Option<string>)
    ensures DetermineContentTypeFromExtension(fileName) == Minio.DetermineContentTypeFromExtension(fileName)
    ensures DetectContentType(detected, fileName) == Minio.DetectContentType(detected, fileName)
  {
    if fileName.Some? {
      ExtensionTablesAgree(Minio.Extension(fileName.value));
    }
  }
}
