/** Building the detail triple `[base64 content, name, extension]` of a
    picked file: `getBase64EncodedStringFromBytes`, `formatFileDetails`, and
    the two `getFileDetails` overloads, for a file reached through a local
    path and for content reached only through the content resolver. */
module FileDetails {
  import opened Wrappers
  import opened Java
  import opened Json
  import opened Base64
  import opened FileName
  import opened FileLoad

  /** `getBase64EncodedStringFromBytes`: `null` for a null or empty array,
      otherwise an unwrapped encoding that decodes back to the bytes. */
  function Base64OrNull(bytes: Option<seq<byte>>): (r: Option<string>)
    ensures r.None? <==> bytes.None? || bytes.value == []
    ensures r.Some? ==> Decode(r.value) == Some(bytes.value)
    ensures r.Some? ==> '\n' !in r.value && '\r' !in r.value
  {
    if bytes.Some? && |bytes.value| > 0 then
      DecodeEncode(bytes.value);
      EncodeAlphabet(bytes.value);
      Some(Encode(bytes.value))
    else None
  }

  /** The first element of a triple holds the content: JSON null when there
      is none, otherwise a string that decodes to it. */
  predicate EncodesContent(v: JsonValue, bytes: Option<seq<byte>>)
  {
    if bytes.None? || bytes.value == [] then v == JNull
    else v.JString? && Decode(v.s) == Some(bytes.value)
  }

  /** The last two elements split the file name at its last `.` past the
      first character, or carry the whole name and "". */
  predicate SplitsName(name: JsonValue, ext: JsonValue, fileName: string)
  {
    name.JString? && ext.JString? && '.' !in ext.s &&
    if HasExtension(fileName) then name.s + "." + ext.s == fileName && name.s != ""
    else name.s == fileName && ext.s == ""
  }

  /** A three-element detail array describing a file with these bytes and
      this name. */
  predicate DescribesFile(details: seq<JsonValue>, bytes: Option<seq<byte>>, fileName: string)
  {
    |details| == 3 && EncodesContent(details[0], bytes) && SplitsName(details[1], details[2], fileName)
  }

  /** `formatFileDetails`: no array for a null or empty file name, otherwise
      the triple describing the file. Building a `JSONArray` from a `String[]`
      cannot throw, so its `JSONException` branch is never taken. */
  function FormatFileDetails(bytes: Option<seq<byte>>, fileName: Option<string>): (r: Option<seq<JsonValue>>)
    ensures r.None? <==> fileName.None? || fileName.value == ""
    ensures r.Some? ==> DescribesFile(r.value, bytes, fileName.value)
  {
    if fileName.Some? && |fileName.value| > 0 then
      var content := Base64OrNull(bytes);
      var nameAndType := SplitNameAndType(fileName.value);
      Some([if content.Some? then JString(content.value) else JNull,
            JString(nameAndType.name), JString(nameAndType.ext)])
    else None
  }

  /** What the content resolver answers for `query(uri, ...)`: no cursor, a
      cursor without rows (`moveToFirst` is false), or the display name of
      the first row (`getString` may give null). */
  datatype Cursor = NoCursor | NoRows | FirstRow(displayName: Option<string>)

  /** What `openInputStream(uri)` and `IOUtils.toByteArray` give: a
      `FileNotFoundException`, a null stream, an `IOException` or
      `NullPointerException` while reading, or all the bytes. */
  datatype ContentStream = NotFound | NullStream | ReadFails | Delivers(bytes: seq<byte>)

  /** `getFileDetails(Uri)`, for content held by a provider: a triple
      exactly when there is a first row with a non-empty display name and
      the stream delivers, and then it describes the delivered bytes. */
  function RemoteFileDetails(cursor: Cursor, stream: ContentStream): (r: Option<seq<JsonValue>>)
    ensures r.Some? <==>
              cursor.FirstRow? && cursor.displayName.Some? && cursor.displayName.value != "" && stream.Delivers?
    ensures r.Some? ==> DescribesFile(r.value, Some(stream.bytes), cursor.displayName.value)
  {
    match cursor
    case NoCursor => None
    case NoRows => None
    case FirstRow(name) =>
      match stream
      case Delivers(bytes) => FormatFileDetails(Some(bytes), name)
      case _ => None
  }

  /** The bytes a triple of a local file carries: none when the file is too
      long for a Java array, otherwise its declared length of content. */
  function LocalContent(file: LocalFile): Option<seq<byte>>
    requires file.Present? && (file.length > INTEGER_MAX_VALUE || file.length <= |file.content|)
  {
    if file.length > INTEGER_MAX_VALUE then None else Some(file.content[..file.length])
  }

  /** `getFileDetails(String)` as a value, for a file at a local path: a
      triple exactly when the file exists, is not cut short, and its path
      has a non-empty last component. Content is null for an empty file, and
      also for one too long for a Java array, since `loadFile` then returns
      null and the triple is still built. */
  function LocalFileDetails(path: string, file: LocalFile): (r: Option<seq<JsonValue>>)
    ensures r.Some? <==>
              file.Present? && (file.length > INTEGER_MAX_VALUE || file.length <= |file.content|) &&
              BaseName(path) != ""
    ensures r.Some? ==> DescribesFile(r.value, LocalContent(file), BaseName(path))
  {
    match file
    case Missing => None
    case Present(length, content) =>
      if length > INTEGER_MAX_VALUE then FormatFileDetails(None, Some(BaseName(path)))
      else if |content| < length then None
      else FormatFileDetails(Some(content[..length]), Some(BaseName(path)))
  }

  /** `getFileDetails(String)`: loads the file, then formats it; any
      `IOException` from `loadFile` gives no array. */
  method GetLocalFileDetails(path: string, file: LocalFile) returns (r: Option<seq<JsonValue>>)
    ensures r == LocalFileDetails(path, file)
  {
    var loaded := LoadFile(file);
    match loaded
    case Thrown(_) =>
      r := None;
    case Null =>
      r := FormatFileDetails(None, Some(BaseName(path)));
    case Bytes(buffer) =>
      r := FormatFileDetails(Some(buffer[..]), Some(BaseName(path)));
  }
}
