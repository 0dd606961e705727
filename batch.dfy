/** The per-file loop of the POST branch of `home()` (web_app/app.py, lines 35-58). */
module BatchPredictor {
  import opened Wrappers
  import opened Verdict

  newtype byte = x: int | 0 <= x < 256

  /** One entry of the `project_files` upload: its filename ("" when no file was chosen) and raw bytes. */
  datatype UploadedFile = UploadedFile(filename: string, content: seq<byte>)

  /** The loaded pipeline, seen only through its two calls; either may raise.
      `predictProba` gives the probability of label 1. */
  datatype Classifier = Classifier(predict: string -> Result<int>, predictProba: string -> Result<real>)

  /** `bytes.decode('utf-8', errors='ignore')`: total, it never raises. */
  type Decoder = seq<byte> -> string

  /** What one pass of the loop body does with one file. */
  datatype ItemOutcome =
    | Skipped                                  // empty filename: `continue`
    | Failed(filename: string, reason: string) // an exception was caught and logged
    | Produced(record: Record)                 // a record was appended

  /** The loop body for one file, as a value. */
  function Process(clf: Classifier, decode: Decoder, file: UploadedFile): (o: ItemOutcome)
    ensures o.Skipped? <==> file.filename == ""
    ensures o.Failed? ==> o.filename == file.filename != ""
    ensures o.Produced? <==>
              file.filename != "" &&
              clf.predict(decode(file.content)).Ok? && clf.predictProba(decode(file.content)).Ok?
    ensures o.Produced? ==>
              o.record.filename == file.filename && WellFormed(o.record) &&
              o.record == MakeRecord(file.filename, clf.predict(decode(file.content)).value,
                                     clf.predictProba(decode(file.content)).value)
  {
    if file.filename == "" then Skipped
    else
      var text := decode(file.content);
      match clf.predict(text)
      case Err(e) => Failed(file.filename, e)
      case Ok(prediction) =>
        match clf.predictProba(text)
        case Err(e) => Failed(file.filename, e)
        case Ok(probability) => Produced(MakeRecord(file.filename, prediction, probability))
  }

  /** The records a single outcome contributes to `results`. */
  function Emitted(o: ItemOutcome): seq<Record>
  {
    if o.Produced? then [o.record] else []
  }

  /** The filenames a single outcome contributes to the error log. */
  function Logged(o: ItemOutcome): seq<string>
  {
    if o.Failed? then [o.filename] else []
  }

  /** `results` after the loop has gone over `files`. */
  function Report(clf: Classifier, decode: Decoder, files: seq<UploadedFile>): seq<Record>
    decreases |files|
  {
    if files == [] then []
    else Report(clf, decode, files[..|files| - 1]) + Emitted(Process(clf, decode, files[|files| - 1]))
  }

  /** The filenames reported as "Error processing ..." after the loop has gone over `files`. */
  function Failures(clf: Classifier, decode: Decoder, files: seq<UploadedFile>): seq<string>
    decreases |files|
  {
    if files == [] then []
    else Failures(clf, decode, files[..|files| - 1]) + Logged(Process(clf, decode, files[|files| - 1]))
  }

  /** The positions in `files` of the files that produced a record, in order. */
  function Origins(clf: Classifier, decode: Decoder, files: seq<UploadedFile>): seq<nat>
    decreases |files|
  {
    if files == [] then []
    else
      Origins(clf, decode, files[..|files| - 1]) +
      (if Process(clf, decode, files[|files| - 1]).Produced? then [|files| - 1] else [])
  }

  /** The number of files with a non-empty filename. */
  function Named(files: seq<UploadedFile>): nat
    decreases |files|
  {
    if files == [] then 0
    else Named(files[..|files| - 1]) + (if files[|files| - 1].filename != "" then 1 else 0)
  }

  /** The loop of `home()`: every file is visited in order, empty filenames are
      skipped, and a failure of one file is caught so that later files are still handled. */
  method PredictBatch(clf: Classifier, decode: Decoder, files: seq<UploadedFile>)
    returns (results: seq<Record>, failed: seq<string>)
    ensures results == Report(clf, decode, files)
    ensures failed == Failures(clf, decode, files)
  {
    results, failed := [], [];
    var i := 0;
    while i < |files|
      invariant 0 <= i <= |files|
      invariant results == Report(clf, decode, files[..i])
      invariant failed == Failures(clf, decode, files[..i])
    {
      var file := files[i];
      assert files[..i + 1][..i] == files[..i];
      i := i + 1;
      if file.filename == "" {
        continue;
      }
      var text := decode(file.content);
      var prediction := clf.predict(text);
      if prediction.Err? {
        failed := failed + [file.filename];
        continue;
      }
      var probability := clf.predictProba(text);
      if probability.Err? {
        failed := failed + [file.filename];
        continue;
      }
      var status := StatusOf(prediction.value);
      var cssClass := CssClassOf(prediction.value);
      results := results + [Record(file.filename, status, Percent(probability.value), cssClass)];
    }
    assert files[..|files|] == files;
  }

  /** The report of a batch is the report of its first part followed by that of the rest:
      what happens to one file never changes what happens to another. */
  lemma {:induction false} ReportConcat(clf: Classifier, decode: Decoder, a: seq<UploadedFile>, b: seq<UploadedFile>)
    ensures Report(clf, decode, a + b) == Report(clf, decode, a) + Report(clf, decode, b)
    ensures Failures(clf, decode, a + b) == Failures(clf, decode, a) + Failures(clf, decode, b)
    decreases |b|
  {
    if b == [] {
      assert a + b == a;
    } else {
      var b' := b[..|b| - 1];
      assert (a + b)[..|a + b| - 1] == a + b';
      assert (a + b)[|a + b| - 1] == b[|b| - 1];
      ReportConcat(clf, decode, a, b');
    }
  }

  /** A one-file batch contributes exactly what the loop body does with that file. */
  lemma {:induction false} ReportSingle(clf: Classifier, decode: Decoder, file: UploadedFile)
    ensures Report(clf, decode, [file]) == Emitted(Process(clf, decode, file))
    ensures Failures(clf, decode, [file]) == Logged(Process(clf, decode, file))
  {
  }

  /** A file with an empty filename neither adds a record nor is logged as a failure. */
  lemma {:induction false} SkippedFileIsNoOp(clf: Classifier, decode: Decoder, a: seq<UploadedFile>, file: UploadedFile, b: seq<UploadedFile>)
    requires file.filename == ""
    ensures Report(clf, decode, a + [file] + b) == Report(clf, decode, a + b)
    ensures Failures(clf, decode, a + [file] + b) == Failures(clf, decode, a + b)
  {
    ReportConcat(clf, decode, a + [file], b);
    ReportConcat(clf, decode, a, [file]);
    ReportSingle(clf, decode, file);
    assert Report(clf, decode, a + [file]) == Report(clf, decode, a);
    assert Failures(clf, decode, a + [file]) == Failures(clf, decode, a);
    ReportConcat(clf, decode, a, b);
  }

  /** A file whose prediction raises is missing from the report and logged once by name;
      the files before and after it are reported exactly as if it were not there. */
  lemma {:induction false} FailingFileIsIsolated(clf: Classifier, decode: Decoder, a: seq<UploadedFile>, file: UploadedFile, b: seq<UploadedFile>)
    requires Process(clf, decode, file).Failed?
    ensures Report(clf, decode, a + [file] + b) == Report(clf, decode, a) + Report(clf, decode, b)
    ensures Failures(clf, decode, a + [file] + b) == Failures(clf, decode, a) + [file.filename] + Failures(clf, decode, b)
  {
    ReportConcat(clf, decode, a + [file], b);
    ReportConcat(clf, decode, a, [file]);
    ReportSingle(clf, decode, file);
    assert Report(clf, decode, a + [file]) == Report(clf, decode, a);
    assert Failures(clf, decode, a + [file]) == Failures(clf, decode, a) + [file.filename];
  }

  /** Every file with a filename ends up either as exactly one record or as exactly one log
      entry, so there are never more records than named files. */
  lemma {:induction false} ReportCount(clf: Classifier, decode: Decoder, files: seq<UploadedFile>)
    ensures |Report(clf, decode, files)| + |Failures(clf, decode, files)| == Named(files)
    ensures |Report(clf, decode, files)| <= Named(files) <= |files|
    decreases |files|
  {
    if files != [] {
      ReportCount(clf, decode, files[..|files| - 1]);
    }
  }

  /** Record k of the report is what the loop body made of file `Origins[k]`. */
  ghost predicate ComesFrom(clf: Classifier, decode: Decoder, files: seq<UploadedFile>, report: seq<Record>, origins: seq<nat>, k: nat)
    requires k < |report| == |origins|
  {
    origins[k] < |files| && Process(clf, decode, files[origins[k]]) == Produced(report[k])
  }

  /** The report is exactly the records of the files that produced one, in upload order:
      record k comes from file Origins[k] (so it carries that file's name, which is not empty,
      and is well formed), the origins strictly increase, and every file that produced a
      record is among them. */
  lemma {:induction false} ReportOrigins(clf: Classifier, decode: Decoder, files: seq<UploadedFile>)
    ensures |Origins(clf, decode, files)| == |Report(clf, decode, files)|
    ensures forall k :: 0 <= k < |Report(clf, decode, files)| ==>
              ComesFrom(clf, decode, files, Report(clf, decode, files), Origins(clf, decode, files), k)
    ensures forall k, l :: 0 <= k < l < |Origins(clf, decode, files)| ==>
              Origins(clf, decode, files)[k] < Origins(clf, decode, files)[l] < |files|
    ensures forall i :: 0 <= i < |files| && Process(clf, decode, files[i]).Produced? ==>
              i in Origins(clf, decode, files)
    decreases |files|
  {
    if files != [] {
      var n := |files| - 1;
      var init := files[..n];
      ReportOrigins(clf, decode, init);
      var o := Process(clf, decode, files[n]);
      var report, origins := Report(clf, decode, files), Origins(clf, decode, files);
      var report', origins' := Report(clf, decode, init), Origins(clf, decode, init);
      assert report == report' + Emitted(o);
      assert origins == origins' + (if o.Produced? then [n] else []);
      forall k | 0 <= k < |report|
        ensures ComesFrom(clf, decode, files, report, origins, k)
      {
        if k < |report'| {
          assert ComesFrom(clf, decode, init, report', origins', k);
          assert files[origins'[k]] == init[origins'[k]];
        }
      }
      forall k, l | 0 <= k < l < |origins|
        ensures origins[k] < origins[l] < |files|
      {
        assert ComesFrom(clf, decode, init, report', origins', k);
        if l < |origins'| {
          assert ComesFrom(clf, decode, init, report', origins', l);
        }
      }
      forall i | 0 <= i < |files| && Process(clf, decode, files[i]).Produced?
        ensures i in origins
      {
        if i < n {
          assert files[i] == init[i];
        }
      }
    }
  }

  /** Every record of a report carries the name of a file that was uploaded, is well formed,
      and the records follow the order of the files they came from. */
  lemma {:induction false} ReportRecordsAreWellFormed(clf: Classifier, decode: Decoder, files: seq<UploadedFile>)
    ensures forall r :: r in Report(clf, decode, files) ==>
              WellFormed(r) && r.filename != "" && exists i :: 0 <= i < |files| && files[i].filename == r.filename
  {
    ReportOrigins(clf, decode, files);
    var report, origins := Report(clf, decode, files), Origins(clf, decode, files);
    forall r | r in report
      ensures WellFormed(r) && r.filename != "" && exists i :: 0 <= i < |files| && files[i].filename == r.filename
    {
      var k :| 0 <= k < |report| && report[k] == r;
      assert ComesFrom(clf, decode, files, report, origins, k);
    }
  }

  /** Two named files around an empty entry, with a classifier that always answers: both named
      files are reported, in upload order, and the one with undecodable bytes is not rejected. */
  lemma {:induction false} MixedBatchExample(clf: Classifier, decode: Decoder)
    requires forall text :: clf.predict(text).Ok? && clf.predictProba(text).Ok?
    ensures var files := [UploadedFile("a.py", [100, 101, 102]), UploadedFile("", []), UploadedFile("b.py", [0xff, 0xfe, 32])];
            |Report(clf, decode, files)| == 2 &&
            Report(clf, decode, files)[0].filename == "a.py" &&
            Report(clf, decode, files)[1].filename == "b.py" &&
            Failures(clf, decode, files) == []
  {
    var a, e, b := UploadedFile("a.py", [100, 101, 102]), UploadedFile("", []), UploadedFile("b.py", [0xff, 0xfe, 32]);
    ReportSingle(clf, decode, a);
    ReportSingle(clf, decode, b);
    SkippedFileIsNoOp(clf, decode, [a], e, [b]);
    ReportConcat(clf, decode, [a], [b]);
    assert [a] + [e] + [b] == [a, e, b];
    assert [a] + [b] == [a, b];
  }

  /** In a batch of three whose middle file makes the classifier raise, the other two are
      still reported and only the middle one is logged. */
  lemma {:induction false} FailureMidBatchExample(clf: Classifier, decode: Decoder, one: UploadedFile, two: UploadedFile, three: UploadedFile)
    requires one.filename != "" && two.filename != "" && three.filename != ""
    requires clf.predict(decode(two.content)).Err?
    requires clf.predict(decode(one.content)).Ok? && clf.predictProba(decode(one.content)).Ok?
    requires clf.predict(decode(three.content)).Ok? && clf.predictProba(decode(three.content)).Ok?
    ensures |Report(clf, decode, [one, two, three])| == 2
    ensures Report(clf, decode, [one, two, three])[0].filename == one.filename
    ensures Report(clf, decode, [one, two, three])[1].filename == three.filename
    ensures Failures(clf, decode, [one, two, three]) == [two.filename]
  {
    ReportSingle(clf, decode, one);
    ReportSingle(clf, decode, three);
    FailingFileIsIsolated(clf, decode, [one], two, [three]);
    assert [one] + [two] + [three] == [one, two, three];
  }
}
