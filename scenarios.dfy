/** The plugin's documented scenarios, stated on the model: what a picked
    local file, a file with details, a cancellation and a failing remote
    stream deliver, and a whole session through the plugin object. */
module Scenarios {
  import opened Wrappers
  import opened Java
  import opened Json
  import opened Base64
  import opened FileName
  import opened FileLoad
  import opened FileDetails
  import opened FilePickerPlugin

  const PHOTO_URI: Uri := Uri("content://media/external/images/media/7")
  const TEST_BYTES: seq<byte> := [116, 101, 115, 116]  // "test"

  lemma EncodeTest()
    ensures Encode(TEST_BYTES) == "dGVzdA=="
  {
    assert Digit(29) == 'd' && Digit(6) == 'G' && Digit(21) == 'V' && Digit(51) == 'z' && Digit(0) == 'A';
    assert EncodeTriple(116, 101, 115) == "dGVz";
    assert EncodeOne(116) == "dA==";
    assert TEST_BYTES[3..] == [116];
    assert Encode(TEST_BYTES) == EncodeTriple(116, 101, 115) + Encode([116]);
  }

  lemma SplitReport()
    ensures SplitNameAndType("report.PDF") == NameAndType("report", "PDF")
  {
    SplitJoin("report", "PDF");
    assert "report" + "." + "PDF" == "report.PDF";
  }

  lemma SplitArchive()
    ensures SplitNameAndType("archive.tar.gz") == NameAndType("archive.tar", "gz")
  {
    SplitJoin("archive.tar", "gz");
    assert "archive.tar" + "." + "gz" == "archive.tar.gz";
  }

  /** A leading dot does not start an extension. */
  lemma SplitDotFile()
    ensures SplitNameAndType(".bashrc") == NameAndType(".bashrc", "")
  {
    var s := ".bashrc";
    assert forall i :: 0 < i < |s| ==> s[i] != '.';
    LastIndexOfAt(s, '.', 0);
  }

  lemma SplitNoDot()
    ensures SplitNameAndType("README") == NameAndType("README", "")
  {
    var s := "README";
    assert forall i :: 0 <= i < |s| ==> s[i] != '.';
    LastIndexOfAt(s, '.', -1);
  }

  /** A local file picked without details answers with its path. */
  lemma LocalPathScenario(c: Cursor, s: ContentStream, f: LocalFile)
    ensures ActivityOutcome(RESULT_OK, Some(Intent(Some(PHOTO_URI))), false,
                            Platform(Some("/storage/photo.jpg"), f, c, s))
            == SuccessString("/storage/photo.jpg")
  {
  }

  const REPORT_PATH: string := "/storage/report.PDF"
  const REPORT_TRIPLE: seq<JsonValue> := [JString("dGVzdA=="), JString("report"), JString("PDF")]

  lemma ReportBaseName()
    ensures BaseName(REPORT_PATH) == "report.PDF"
  {
    var path := REPORT_PATH;
    assert forall i :: 8 < i < |path| ==> path[i] != '/';
    LastIndexOfAt(path, '/', 8);
  }

  lemma ReportFormat()
    ensures FormatFileDetails(Some(TEST_BYTES), Some("report.PDF")) == Some(REPORT_TRIPLE)
  {
    SplitReport();
    EncodeTest();
    assert Base64OrNull(Some(TEST_BYTES)) == Some("dGVzdA==");
  }

  lemma ReportDetails()
    ensures LocalFileDetails(REPORT_PATH, Present(4, TEST_BYTES)) == Some(REPORT_TRIPLE)
  {
    ReportBaseName();
    ReportFormat();
    assert TEST_BYTES[..4] == TEST_BYTES;
  }

  /** `report.PDF` holding "test", picked with details. */
  lemma LocalDetailsScenario(c: Cursor, s: ContentStream)
    ensures ActivityOutcome(RESULT_OK, Some(Intent(Some(PHOTO_URI))), true,
                            Platform(Some(REPORT_PATH), Present(4, TEST_BYTES), c, s))
            == SuccessArray(REPORT_TRIPLE)
  {
    var p := Platform(Some(REPORT_PATH), Present(4, TEST_BYTES), c, s);
    ReportDetails();
    assert HasLocalPath(p.realPath);
    assert ProcessOutcome(true, Intent(Some(PHOTO_URI)), p) == DetailsResult(Some(REPORT_TRIPLE));
  }

  /** A cancelled chooser fails the request, whatever the platform says. */
  lemma CancelScenario(intent: Option<Intent>, returnDetails: bool, p: Platform)
    ensures ActivityOutcome(RESULT_CANCELED, intent, returnDetails, p) == Error(SELECTION_CANCELLED)
  {
  }

  /** Remote content whose stream throws while being read. */
  lemma RemoteReadFailsScenario(f: LocalFile)
    ensures ActivityOutcome(RESULT_OK, Some(Intent(Some(PHOTO_URI))), true,
                            Platform(None, f, FirstRow(Some("notes.txt")), ReadFails))
            == Error(PARSE_ERROR)
  {
  }

  /** A session on one plugin object: `deviceSupported` answers at once and
      starts no chooser; `pickFile` with details is acknowledged, and the
      chooser's result then brings exactly one final answer to the same
      callback; a later `pickFile` without a second argument keeps the flag. */
  method Session(p: Platform)
  {
    var picker := new FilePicker();
    var r := picker.Execute(DEVICE_SUPPORTED, [], "cb1");
    assert r == Returned(false) && picker.chooserLaunches == 0;
    assert picker.deliveries == [Delivery("cb1", SuccessString("true"))];

    r := picker.Execute(PICK_FILE, [JNull, JString("TRUE")], "cb2");
    assert GetBoolean([JNull, JString("TRUE")], 1) == Some(true);
    assert r == Returned(true) && picker.returnFileWithDetails && picker.chooserLaunches == 1;
    picker.OnActivityResult(0, RESULT_CANCELED, None, p);
    assert picker.deliveries[1..] ==
           [Delivery("cb2", NoResultKeepCallback), Delivery("cb2", Error(SELECTION_CANCELLED))];

    r := picker.Execute(PICK_FILE, [JString("*/*")], "cb3");
    assert picker.returnFileWithDetails;
    picker.OnActivityResult(0, RESULT_OK, Some(Intent(None)), p);
    assert picker.deliveries[3..] ==
           [Delivery("cb3", NoResultKeepCallback), Delivery("cb3", Error(NULL_DATA))];
  }
}
