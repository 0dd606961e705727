/** The `/` route of web_app/app.py (lines 23-60): the page `home()` renders. */
module WebApp {
  import opened Wrappers
  import opened Verdict
  import opened BatchPredictor

  /** The two methods the route accepts. */
  datatype HttpMethod = Get | Post

  /** What is handed to the template: an error message, or the list of records. */
  datatype Page = ErrorPage(error: string) | ReportPage(results: seq<Record>)

  const ModelNotLoaded: string := "Model not loaded. Please contact the administrator."

  /** A GET shows an empty report; a POST without a model shows the error and never reaches the
      classifier; a POST with a model shows the records of the uploaded files. */
  method Home(request: HttpMethod, model: Option<Classifier>, decode: Decoder, files: seq<UploadedFile>)
    returns (page: Page)
    ensures page.ErrorPage? <==> request == Post && model.None?
    ensures page.ErrorPage? ==> page.error == ModelNotLoaded
    ensures request == Get ==> page.results == []
    ensures request == Post && model.Some? ==> page.results == Report(model.value, decode, files)
    ensures page.ReportPage? ==> |page.results| <= Named(files)
    ensures page.ReportPage? ==> forall r :: r in page.results ==> WellFormed(r)
  {
    var results: seq<Record> := [];
    if request == Post {
      if model.None? {
        return ErrorPage(ModelNotLoaded);
      }
      var failed;
      results, failed := PredictBatch(model.value, decode, files);
      ReportCount(model.value, decode, files);
      ReportRecordsAreWellFormed(model.value, decode, files);
    }
    page := ReportPage(results);
  }
}
