# BugPredictor web front end: a Dafny model of the batch verdict loop

BugPredictor's web application (`web_app/app.py`) loads a pre-trained
"defective vs clean" text classifier once at startup and, on each POST of
the upload form, runs every uploaded source file through it and renders a
per-file report: the filename, a SAFE/RISKY status, the css class that
colours the row, and the probability of "defective" as a percentage rounded
to two decimals. This project models that core and proves what it promises:

- `Wrappers`: `Option` (the module-level `model`, possibly `None`) and
  `Result` (a call that may raise, with the exception's message).
- `Verdict` (lines 47-56): the status and css class of a label, the exact
  rounding of `round(probability * 100, 2)`, and the report record.
- `BatchPredictor` (lines 35-58): the loop body as a value (`Process`),
  specification functions for what the loop leaves in `results` (`Report`)
  and in the error log (`Failures`), the `while` loop itself
  (`PredictBatch`) proved against them, and lemmas: batches compose, an
  empty filename is a no-op, a failing file is isolated, the count bound,
  and the exact order-preserving correspondence between records and files.
- `ModelLoader` (lines 9-21): the three outcomes of startup loading.
- `WebApp` (lines 23-60): `home()`, GET and POST.

The classifier is opaque: a pair of total functions `predict` and
`predictProba` from text to `Result`, one per call at lines 44 and 45, so
either may fail. Decoding the uploaded bytes is a total function parameter.
The probability returned by the classifier is an exact `real`; the record
stores the rounded percentage as a whole number of hundredths of a percent
(87.34 is stored as 8734), so the rounding at line 54 is exact arithmetic:
the nearest integer to `probability * 10000`, a tie going to the even
neighbour as Python's `round` does.

## Model

| member | source | states |
|---|---|---|
| `Verdict.StatusOf` | web_app/app.py:48 | the status is "RISKY" or "SAFE" and nothing else; "RISKY" exactly when the prediction is 1 |
| `Verdict.CssClassOf` | web_app/app.py:49 | the css class is "danger" or "success" and nothing else; "danger" exactly when the prediction is 1 |
| `Verdict.RoundHalfEven` | web_app/app.py:54 | the result is within one half of its argument, and an exact tie goes to the even integer |
| `Verdict.RoundHalfEvenUnique` | web_app/app.py:54 | any integer meeting that rounding contract is the one `RoundHalfEven` returns, so the contract pins the rounding down completely |
| `Verdict.Percent` | web_app/app.py:54 | the shown percentage (in hundredths) is within half a hundredth of `probability * 100`, and lies in [0, 100.00] whenever the probability lies in [0, 1] |
| `Verdict.PercentMonotone` | web_app/app.py:54 | a higher probability is never shown as a lower percentage |
| `Verdict.MakeRecord` | web_app/app.py:47-56 | the record keeps the filename, its status and css class agree ("RISKY"/"danger" or "SAFE"/"success"), it is RISKY exactly for label 1, and its percentage is the rounded scaled probability |
| `Verdict.RiskyExample` | web_app/app.py:44-56 | label 1 with probability 0.8734 gives status RISKY, percentage 87.34 and css class "danger" |
| `BatchPredictor.Process` | web_app/app.py:36-58 | one file is skipped exactly when its filename is empty; otherwise it yields a record exactly when both classifier calls succeed (a well-formed record carrying its filename), and a logged failure naming it when either raises |
| `BatchPredictor.PredictBatch` | web_app/app.py:25-58 | the loop leaves in `results` exactly `Report` of the uploaded files and logs exactly `Failures` of them |
| `BatchPredictor.ReportSingle` | web_app/app.py:36-58 | a one-file batch reports exactly what the loop body made of that file |
| `BatchPredictor.ReportConcat` | web_app/app.py:35-58 | the records and the logged failures of a batch are those of its first part followed by those of the rest: no file changes the outcome of another |
| `BatchPredictor.SkippedFileIsNoOp` | web_app/app.py:36 | inserting a file with an empty filename anywhere changes neither the records nor the failure log |
| `BatchPredictor.FailingFileIsIsolated` | web_app/app.py:38-58 | a file whose prediction raises is absent from the records and logged once by name, and the files before and after it are reported as if it were not there |
| `BatchPredictor.ReportCount` | web_app/app.py:35-58 | records plus logged failures equal the number of files with a non-empty filename, so there are never more records than named files |
| `BatchPredictor.ReportOrigins` | web_app/app.py:35-56 | record k is exactly the record made of file `Origins[k]`; the origins strictly increase (upload order is kept); every file that produced a record is among them |
| `BatchPredictor.ReportRecordsAreWellFormed` | web_app/app.py:48-56 | every reported record has a consistent status and css class and the non-empty name of an uploaded file |
| `BatchPredictor.MixedBatchExample` | web_app/app.py:35-56 | for files "a.py", "" and "b.py" (the last with undecodable bytes) and a classifier that always answers, exactly the records for "a.py" and "b.py" are produced, in that order, and nothing is logged |
| `BatchPredictor.FailureMidBatchExample` | web_app/app.py:38-58 | when the middle file of three makes the classifier raise, the first and third are still reported in order and only the middle one is logged |
| `ModelLoader.LoadModel` | web_app/app.py:12-21 | startup never raises; the model is present exactly when the path exists and loading succeeds, and is then the loaded one; a missing path and a load error each leave `None` with their own diagnostic |
| `WebApp.Home` | web_app/app.py:23-60 | a POST without a model renders the "Model not loaded" error and is the only way to get an error page; a GET renders an empty report; a POST with a model renders exactly the batch report, with at most as many records as named files, every one well formed |

## Left out

- Flask routing, `request.files`, `render_template` and `app.run` (lines 1, 5, 23, 33, 60, 62-63): HTTP and templating glue; the request method, the uploaded files and the rendered page are plain values here.
- `os.path.exists` and `joblib.load` (lines 13-14): filesystem access and deserialisation; `LoadModel` takes their outcome as parameters.
- `LoadModel`: the truthiness test `if not model` (line 29) is modelled as `model.None?`; a loaded object that Python would judge false is not modelled.
- The internals of `model.predict` and `model.predict_proba` (lines 44-45): an opaque pipeline, kept as uninterpreted functions that may fail.
- UTF-8 decoding with `errors='ignore'` (line 40): a total function parameter, so decoding never fails; `file.read()` raising is not modelled either, which leaves the classifier calls as the only per-file failures.
- `Percent`: the binary floating-point product `probability * 100` and the float result of `round` are not modelled; the percentage is the exact rounding of the exact product, in hundredths of a percent.
- The text of the `print` lines (lines 15, 18, 21, 58): the startup line is modelled as `LoadOutcome` and the per-file line as the filename in the failure log; the exception text is kept only in `Process`'s `Failed` outcome.
- A record field saying whether decoding dropped bytes: the code builds no such field, so the record has only the four keys of lines 52-55.
- The classifier's probability is not required to lie in [0, 1]; the percentage bound holds only when it does, since the code does not check it.
- Determinism of repeated batches holds by construction (everything is a function of its inputs) and is not stated as a separate lemma.
