/** The Cordova plugin object: it receives `pickFile` and `deviceSupported`
    from JavaScript, keeps the callback context and the process-wide
    `returnFileWithDetails` flag, and answers the chooser's result by
    delivering exactly one final callback. Every delivery is recorded, with
    the callback it went to, in `deliveries`. */
module FilePickerPlugin {
  import opened Wrappers
  import opened Java
  import opened Json
  import opened FileName
  import opened FileLoad
  import opened FileDetails

  const PICK_FILE: string := "pickFile"
  const DEVICE_SUPPORTED: string := "deviceSupported"

  /** `Activity.RESULT_OK` and `Activity.RESULT_CANCELED`. */
  const RESULT_OK: int := -1
  const RESULT_CANCELED: int := 0

  const SELECTION_CANCELLED: string := "Selection cancelled."
  const SELECTION_INCOMPLETE: string := "Selection did not complete!"
  const NULL_DATA: string := "null data from photo library"
  const PARSE_ERROR: string := "Error parsing file from URI."

  /** Cordova's handle of one JavaScript callback. */
  type CallbackId = string

  /** A `PluginResult` sent to a callback: the keep-alive acknowledgement,
      `success(String)`, `success(JSONArray)` or `error(String)`. */
  datatype PluginResult =
    | NoResultKeepCallback
    | SuccessString(message: string)
    | SuccessArray(items: seq<JsonValue>)
    | Error(message: string)
  {
    /** A result that ends the request, as opposed to the acknowledgement. */
    predicate IsFinal()
    {
      !NoResultKeepCallback?
    }
  }

  datatype Delivery = Delivery(callback: CallbackId, result: PluginResult)

  /** A content URI; `text` is what `toString()` gives. */
  datatype Uri = Uri(text: string)

  /** The chooser's result intent; `getData()` may be null. */
  datatype Intent = Intent(data: Option<Uri>)

  /** What the platform answers about the URI a result carries:
      `FileHelper.getRealPath`, the local file at that path, and the content
      resolver's cursor and stream. */
  datatype Platform = Platform(realPath: Option<string>, file: LocalFile, cursor: Cursor, stream: ContentStream)

  /** How `execute` ends: its boolean, or the `JSONException` that
      `args.getBoolean(1)` throws. */
  datatype ExecOutcome = Returned(valid: bool) | ThrowsJsonException

  /** The test on the resolved path: neither null nor empty. */
  predicate HasLocalPath(realPath: Option<string>)
  {
    realPath.Some? && |realPath.value| > 0
  }

  /** `sendOrFailFileDetails`: success with the array exactly when there is
      one of length 3, otherwise the parse error. */
  function DetailsResult(details: Option<seq<JsonValue>>): (r: PluginResult)
    ensures r.IsFinal()
    ensures r.SuccessArray? <==> details.Some? && |details.value| == 3
    ensures r.SuccessArray? ==> r.items == details.value
    ensures !r.SuccessArray? ==> r == Error(PARSE_ERROR)
  {
    if details.Some? && |details.value| == 3 then SuccessArray(details.value) else Error(PARSE_ERROR)
  }

  /** `processResult`: what the one callback after a confirmed selection is.
      No URI gives the null-data error. With the flag off it is a string:
      the local path when there is one, else the URI. With the flag on it is
      a triple describing the file, or the parse error, and which of the two
      is decided by the local file or by the content resolver. */
  function ProcessOutcome(returnDetails: bool, intent: Intent, platform: Platform): (r: PluginResult)
    ensures r.IsFinal()
    ensures r == Error(NULL_DATA) <==> intent.data.None?
    ensures intent.data.Some? && !returnDetails ==>
              r == SuccessString(if HasLocalPath(platform.realPath) then platform.realPath.value
                                 else intent.data.value.text)
    ensures intent.data.Some? && returnDetails ==> r.SuccessArray? || r == Error(PARSE_ERROR)
    ensures intent.data.Some? && returnDetails && HasLocalPath(platform.realPath) ==>
              var path, file := platform.realPath.value, platform.file;
              (r.SuccessArray? <==>
                 file.Present? && (file.length > INTEGER_MAX_VALUE || file.length <= |file.content|) &&
                 BaseName(path) != "") &&
              (r.SuccessArray? ==> DescribesFile(r.items, LocalContent(file), BaseName(path)))
    ensures intent.data.Some? && returnDetails && !HasLocalPath(platform.realPath) ==>
              var cursor, stream := platform.cursor, platform.stream;
              (r.SuccessArray? <==>
                 cursor.FirstRow? && cursor.displayName.Some? && cursor.displayName.value != "" &&
                 stream.Delivers?) &&
              (r.SuccessArray? ==> DescribesFile(r.items, Some(stream.bytes), cursor.displayName.value))
  {
    match intent.data
    case None => Error(NULL_DATA)
    case Some(uri) =>
      if !HasLocalPath(platform.realPath) then
        if returnDetails then DetailsResult(RemoteFileDetails(platform.cursor, platform.stream))
        else SuccessString(uri.text)
      else
        if returnDetails then DetailsResult(LocalFileDetails(platform.realPath.value, platform.file))
        else SuccessString(platform.realPath.value)
  }

  /** `onActivityResult`: a confirmed result with an intent is processed;
      a cancelled one fails with "Selection cancelled."; every other case,
      a confirmed result without an intent included, fails with "Selection
      did not complete!". */
  function ActivityOutcome(resultCode: int, intent: Option<Intent>, returnDetails: bool, platform: Platform)
    : (r: PluginResult)
    ensures r.IsFinal()
    ensures resultCode == RESULT_OK && intent.Some? ==> r == ProcessOutcome(returnDetails, intent.value, platform)
    ensures resultCode == RESULT_CANCELED ==> r == Error(SELECTION_CANCELLED)
    ensures resultCode != RESULT_CANCELED && !(resultCode == RESULT_OK && intent.Some?) ==>
              r == Error(SELECTION_INCOMPLETE)
  {
    if resultCode == RESULT_OK && intent.Some? then ProcessOutcome(returnDetails, intent.value, platform)
    else if resultCode == RESULT_CANCELED then Error(SELECTION_CANCELLED)
    else Error(SELECTION_INCOMPLETE)
  }

  /** Every error the plugin reports is one of its four messages, and a
      success only follows a confirmed selection; a triple only when details
      were asked for, a string only when they were not. */
  lemma OutcomeShapes(resultCode: int, intent: Option<Intent>, returnDetails: bool, platform: Platform)
    ensures var r := ActivityOutcome(resultCode, intent, returnDetails, platform);
            (r.Error? ==> r.message in {SELECTION_CANCELLED, SELECTION_INCOMPLETE, NULL_DATA, PARSE_ERROR}) &&
            (!r.Error? ==> resultCode == RESULT_OK && intent.Some? && intent.value.data.Some?) &&
            (r.SuccessArray? ==> returnDetails) &&
            (r.SuccessString? ==> !returnDetails)
  {
  }

  class FilePicker {
    /** `returnFileWithDetails`, a static field in the source. */
    var returnFileWithDetails: bool
    /** The context of the latest `execute`; null before the first. */
    var callbackContext: Option<CallbackId>
    /** Every result sent, in order. */
    var deliveries: seq<Delivery>
    /** How many times the chooser was started. */
    var chooserLaunches: nat

    constructor ()
      ensures !returnFileWithDetails && callbackContext == None
      ensures deliveries == [] && chooserLaunches == 0
    {
      returnFileWithDetails := false;
      callbackContext := None;
      deliveries := [];
      chooserLaunches := 0;
    }

    /** Sends one result to the current callback context. */
    method Send(result: PluginResult)
      requires callbackContext.Some?
      modifies this`deliveries
      ensures deliveries == old(deliveries) + [Delivery(callbackContext.value, result)]
    {
      deliveries := deliveries + [Delivery(callbackContext.value, result)];
    }

    /** `execute`: remembers the context; `pickFile` updates the flag only
        when a second argument is present (a non-boolean one throws before
        anything is sent), starts the chooser, acknowledges with a kept
        callback and is valid; `deviceSupported` answers "true" but returns
        false; any other action sends nothing and returns false. */
    method Execute(action: string, args: seq<JsonValue>, context: CallbackId) returns (r: ExecOutcome)
      modifies this
      ensures callbackContext == Some(context)
      ensures action == PICK_FILE && |args| > 1 && GetBoolean(args, 1).None? ==>
                r == ThrowsJsonException && returnFileWithDetails == old(returnFileWithDetails) &&
                deliveries == old(deliveries) && chooserLaunches == old(chooserLaunches)
      ensures action == PICK_FILE && !(|args| > 1 && GetBoolean(args, 1).None?) ==>
                r == Returned(true) &&
                returnFileWithDetails == (if |args| > 1 then GetBoolean(args, 1).value else old(returnFileWithDetails)) &&
                deliveries == old(deliveries) + [Delivery(context, NoResultKeepCallback)] &&
                chooserLaunches == old(chooserLaunches) + 1
      ensures action == DEVICE_SUPPORTED ==>
                r == Returned(false) && returnFileWithDetails == old(returnFileWithDetails) &&
                deliveries == old(deliveries) + [Delivery(context, SuccessString("true"))] &&
                chooserLaunches == old(chooserLaunches)
      ensures action != PICK_FILE && action != DEVICE_SUPPORTED ==>
                r == Returned(false) && returnFileWithDetails == old(returnFileWithDetails) &&
                deliveries == old(deliveries) && chooserLaunches == old(chooserLaunches)
    {
      callbackContext := Some(context);
      if action == PICK_FILE {
        if |args| > 1 {
          var flag := GetBoolean(args, 1);
          if flag.None? {
            return ThrowsJsonException;
          }
          returnFileWithDetails := flag.value;
        }
        PickFile();
        Send(NoResultKeepCallback);
        return Returned(true);
      } else if action == DEVICE_SUPPORTED {
        Send(SuccessString("true"));
      }
      return Returned(false);
    }

    /** `pickFile`: starts the system chooser for any openable file. */
    method PickFile()
      modifies this`chooserLaunches
      ensures chooserLaunches == old(chooserLaunches) + 1
    {
      chooserLaunches := chooserLaunches + 1;
    }

    /** `processResult`, run directly instead of on the thread pool. */
    method ProcessResult(intent: Intent, platform: Platform)
      requires callbackContext.Some?
      modifies this`deliveries
      ensures deliveries ==
              old(deliveries) + [Delivery(callbackContext.value, ProcessOutcome(returnFileWithDetails, intent, platform))]
    {
      if intent.data.None? {
        FailFile(NULL_DATA);
        return;
      }
      var uri := intent.data.value;
      var fileLocation := platform.realPath;
      if fileLocation.None? || |fileLocation.value| == 0 {
        if returnFileWithDetails {
          SendOrFailFileDetails(RemoteFileDetails(platform.cursor, platform.stream));
        } else {
          Send(SuccessString(uri.text));
        }
      } else {
        if returnFileWithDetails {
          var details := GetLocalFileDetails(fileLocation.value, platform.file);
          SendOrFailFileDetails(details);
        } else {
          Send(SuccessString(fileLocation.value));
        }
      }
    }

    /** `sendOrFailFileDetails`. */
    method SendOrFailFileDetails(details: Option<seq<JsonValue>>)
      requires callbackContext.Some?
      modifies this`deliveries
      ensures deliveries == old(deliveries) + [Delivery(callbackContext.value, DetailsResult(details))]
    {
      if details.Some? && |details.value| == 3 {
        Send(SuccessArray(details.value));
      } else {
        FailFile(PARSE_ERROR);
      }
    }

    /** `onActivityResult`: the request code is not looked at. */
    method OnActivityResult(requestCode: int, resultCode: int, intent: Option<Intent>, platform: Platform)
      requires callbackContext.Some?
      modifies this`deliveries
      ensures deliveries == old(deliveries) +
              [Delivery(callbackContext.value, ActivityOutcome(resultCode, intent, returnFileWithDetails, platform))]
    {
      if resultCode == RESULT_OK && intent.Some? {
        ProcessResult(intent.value, platform);
      } else if resultCode == RESULT_CANCELED {
        FailFile(SELECTION_CANCELLED);
      } else {
        FailFile(SELECTION_INCOMPLETE);
      }
    }

    /** `failFile`: the error callback with a message. */
    method FailFile(err: string)
      requires callbackContext.Some?
      modifies this`deliveries
      ensures deliveries == old(deliveries) + [Delivery(callbackContext.value, Error(err))]
    {
      Send(Error(err));
    }
  }
}
