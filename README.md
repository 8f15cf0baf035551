# cordova-plugin-file-picker, Android bridge: a Dafny model

The plugin lets the web layer of a hybrid app open the system file chooser
and get back either where the picked file is (a local path or a content URI)
or the file itself as a triple `[base64 content, name, extension]`. The
Android class `FilePicker` does this in four small pieces, and this project
models each one.

- **Action dispatch** (`FilePickerPlugin.FilePicker.Execute`). `pickFile`
  sets the process-wide `returnFileWithDetails` flag only when a second
  argument is present. It then starts the chooser and acknowledges with a
  kept `NO_RESULT` callback. `deviceSupported` answers `"true"`. Any other
  action sends nothing.
- **Result dispatch** (`OnActivityResult`, `ProcessResult`,
  `SendOrFailFileDetails`, `FailFile`). The chooser's result code and intent
  lead to exactly one final callback. That callback is the path, the URI
  string, a detail triple, or one of four error messages.
- **Detail extraction** (module `FileDetails`). It covers the local-path and
  content-resolver versions of `getFileDetails`, `formatFileDetails` and
  `getBase64EncodedStringFromBytes`, with their null and empty guards.
- **File reading** (`FileLoad.LoadFile`). It fills an array of the file's
  declared length through an `InputStream` in an offset loop. If the stream
  ends early, it throws instead of returning a partial buffer.
- **Name split** (`FileName.SplitNameAndType`). It cuts at the last `.`
  unless that dot is the first character.

The object's state is a class: the flag, the current callback context, a
log of every delivery (callback, result), and a count of chooser launches.
The platform is passed in as plain values (datatype `Platform`):
- what `FileHelper.getRealPath` resolves;
- the local file at that path (missing, or a declared length and the bytes a
  stream delivers);
- the content resolver's cursor and stream answers.

`InputStream.read` may deliver any chunk size from one byte up to what was
asked for. Because the result is proved for every choice, it holds for every
chunking the platform might use.

Base64 is written out as the encoder of section 4 of RFC 4648: standard
alphabet, `=` padding, no line breaks. It stands in for
`android.util.Base64.encode(bytes, NO_WRAP)`, whose code is not part of this
model. A decoder is included only to prove that the content in a triple
decodes back to the file's bytes.

Where the documented behaviour and the code differ, the model follows the
code:
- A local file longer than `Integer.MAX_VALUE` makes `loadFile` return null.
  `formatFileDetails` still builds a triple from it with JSON null as the
  content, and that triple is delivered as a success, not as the parse
  error. An empty file gets a null content the same way.
- A `pickFile` call without a second argument keeps the previous flag. It
  does not reset the flag to false.
- The JavaScript wrapper always sends two arguments. When `withDetail` is
  omitted, the second one is JSON null, and on that `getBoolean` throws a
  `JSONException` before the chooser is started.
- `loadFile` does not close its stream when it returns null or throws. The
  content-resolver version of `getFileDetails` never closes its stream.
  Neither of these follows the rule that every file handle is closed on every
  path.

## Model

| member | source | states |
|---|---|---|
| `Json.GetBoolean` | src/android/FilePicker.java:74-76 | true exactly for `true` or a "true" string in any letter case, false exactly for `false` or "false"; anything else is the `JSONException` |
| `Base64.EncodeLength` | src/android/FilePicker.java:226 | the encoding has four characters per started group of three bytes |
| `Base64.EncodeAlphabet` | src/android/FilePicker.java:226 | every character of the encoding is from the alphabet or `=`, so it holds no line feed or carriage return, whatever its length |
| `Base64.DecodeEncode` | src/android/FilePicker.java:226 | decoding the encoding of any byte sequence, empty and binary included, gives it back |
| `Base64.EncodeInjective` | src/android/FilePicker.java:226 | different contents never share an encoding |
| `FileName.LastIndexOf` | src/android/FilePicker.java:241 | -1 or a position holding the character, with no occurrence after it |
| `FileName.LastIndexOfAt` | src/android/FilePicker.java:241 | a position holding the character with none after it (or -1 with none at all) is the result |
| `FileName.SplitNameAndType` | src/android/FilePicker.java:238-252 | with a `.` past the first character: non-empty name + "." + dot-free extension is the input; otherwise (no dot, or only a leading one) the input and "" |
| `FileName.SplitJoin` | src/android/FilePicker.java:243-245 | splitting a non-empty name joined by "." to a dot-free extension gives the two parts back |
| `FileName.BaseName` | src/android/FilePicker.java:210 | `file.getName()` is the longest suffix of the path without `/` |
| `FileLoad.FileInputStream.constructor` | src/android/FilePicker.java:275 | a stream opened at the start of the file's content |
| `FileLoad.FileInputStream.Read` | src/android/FilePicker.java:288 | 0 for an empty request, -1 at the end, otherwise between 1 and the requested count of the next bytes copied to the offset, the rest of the array unchanged |
| `FileLoad.FileInputStream.Close` | src/android/FilePicker.java:296 | the stream is closed |
| `FileLoad.LoadFile` | src/android/FilePicker.java:274-298 | missing file: `FileNotFoundException`; length over `Integer.MAX_VALUE`: null; stream shorter than the length: `IOException`, never a partial buffer; else an array of exactly the length holding the file's first bytes |
| `FileDetails.Base64OrNull` | src/android/FilePicker.java:224-230 | null exactly for null or empty bytes; otherwise a string without line breaks that decodes to the bytes |
| `FileDetails.FormatFileDetails` | src/android/FilePicker.java:149-160 | null exactly for a null or empty name; otherwise three elements: content that decodes to the bytes (JSON null when there are none) and the name split at its last dot |
| `FileDetails.RemoteFileDetails` | src/android/FilePicker.java:168-192 | a triple exactly when there is a first row with a non-empty display name and the stream delivers all bytes; it then describes those bytes and that name |
| `FileDetails.LocalFileDetails` | src/android/FilePicker.java:200-216 | a triple exactly when the file exists, is not cut short and its path has a non-empty last component; it then describes the loaded content and that name |
| `FileDetails.GetLocalFileDetails` | src/android/FilePicker.java:200-216 | loading the file and formatting it gives what `LocalFileDetails` describes |
| `FilePickerPlugin.DetailsResult` | src/android/FilePicker.java:261-267 | success carrying the array exactly when there is an array of length 3, otherwise "Error parsing file from URI." |
| `FilePickerPlugin.ProcessOutcome` | src/android/FilePicker.java:115-139 | always final; "null data from photo library" exactly without a URI; flag off: the non-empty local path, else the URI string; flag on: a triple describing the local file or the remote content (each with its exact success condition), else the parse error |
| `FilePickerPlugin.ActivityOutcome` | src/android/FilePicker.java:313-328 | always final; `RESULT_OK` with an intent is processed; `RESULT_CANCELED` gives "Selection cancelled."; everything else, `RESULT_OK` without an intent included, gives "Selection did not complete!" |
| `FilePickerPlugin.OutcomeShapes` | src/android/FilePicker.java:313-328 | every error is one of the four messages; a success needs a confirmed result with a URI; a triple only with the flag on, a string only with it off |
| `FilePickerPlugin.FilePicker.constructor` | src/android/FilePicker.java:50-56 | the flag starts false, no callback context, nothing delivered |
| `FilePickerPlugin.FilePicker.Execute` | src/android/FilePicker.java:70-89 | the whole new state for each action: context replaced; `pickFile` flag overwritten only with a second argument, one launch, one kept `NO_RESULT`, true; a bad second argument throws with nothing sent; `deviceSupported` sends "true" and returns false; others change nothing else and return false |
| `FilePickerPlugin.FilePicker.PickFile` | src/android/FilePicker.java:94-106 | one more chooser launch |
| `FilePickerPlugin.FilePicker.ProcessResult` | src/android/FilePicker.java:115-139 | appends exactly one delivery, `ProcessOutcome`, to the current context |
| `FilePickerPlugin.FilePicker.SendOrFailFileDetails` | src/android/FilePicker.java:261-267 | appends exactly one delivery, `DetailsResult`, to the current context |
| `FilePickerPlugin.FilePicker.OnActivityResult` | src/android/FilePicker.java:313-328 | appends exactly one delivery, `ActivityOutcome` under the current flag, to the current context |
| `FilePickerPlugin.FilePicker.FailFile` | src/android/FilePicker.java:335-337 | appends one error delivery with the message |
| `Scenarios.EncodeTest` | src/android/FilePicker.java:226 | "test" encodes as "dGVzdA==" |
| `Scenarios.SplitReport` | src/android/FilePicker.java:243-245 | "report.PDF" splits into "report" and "PDF" |
| `Scenarios.SplitArchive` | src/android/FilePicker.java:243-245 | "archive.tar.gz" splits at the last dot |
| `Scenarios.SplitDotFile` | src/android/FilePicker.java:246-249 | ".bashrc" stays whole with an empty extension |
| `Scenarios.SplitNoDot` | src/android/FilePicker.java:246-249 | "README" stays whole with an empty extension |
| `Scenarios.LocalPathScenario` | src/android/FilePicker.java:135-137 | a local file picked without details answers with its path |
| `Scenarios.LocalDetailsScenario` | src/android/FilePicker.java:133-134 | a local `report.PDF` holding "test" answers `["dGVzdA==", "report", "PDF"]` |
| `Scenarios.CancelScenario` | src/android/FilePicker.java:322-323 | a cancelled chooser answers "Selection cancelled." |
| `Scenarios.RemoteReadFailsScenario` | src/android/FilePicker.java:180-186 | remote content whose read throws answers "Error parsing file from URI." |

## Left out

- Building the chooser intent (src/android/FilePicker.java:95-105) is not modelled. That covers the intent's type `*/*`, `ACTION_GET_CONTENT`, `CATEGORY_OPENABLE`, the title "Pick File", request code 0 and the `cordova != null` guard. `PickFile` only counts launches, because the rest is a constant descriptor handed to the platform.
- The thread-pool hand-off in `onActivityResult` becomes a direct call to `ProcessResult`. No other thread exists in the model, so the race on the static flag is not modelled.
- The flag is a field of the one plugin object. Sharing it between plugin instances, as a static field does, is not modelled.
- `FileHelper.getRealPath`, `ContentResolver.query` and `openInputStream`, `Cursor`, `IOUtils.toByteArray` and `JSONArray` are foreign code. They enter as the values of `Platform` and `JsonValue`.
- `android.util.Base64` is a library call. The RFC 4648 encoder replaces it.
- The host's reply to a `JSONException` from `execute` is not modelled, because Cordova's own code sends it. `Execute` only reports that the exception was thrown.
- Exceptions that the source does not catch are not modelled, because they crash the call rather than answer it. For example, `getString` throws on a cursor without a display-name column, and a `SecurityException` can come from the resolver.
- Stream and cursor lifetimes are left out of every contract. This includes a cursor left open when `moveToFirst` fails and the streams noted above. `FileInputStream` tracks whether it is open, but no caller sees that.
- `Json.GetBoolean`: only ASCII letters are folded. Java's `equalsIgnoreCase` also matches a few other characters, such as U+017F for `s`.
- `FileName.BaseName`: `java.io.File` first normalises duplicate and trailing separators. The model takes the text after the last `/` as written.
- Strings are sequences of Unicode characters rather than UTF-16 units. The cuts happen at `.` and `/`, which are one unit in both, so the pieces are the same.
- `JsonValue` lumps numbers, objects and nested arrays into one case, because the plugin never reads them.
- src/ios/FilePicker.h declares the iOS class but has no implementation, so it is not part of this model. www/file-picker.js only forwards to Cordova's `exec`.
