/** The module-level model loading of web_app/app.py (lines 9-21), run once at startup. */
module ModelLoader {
  import opened Wrappers
  import opened BatchPredictor

  const ModelPath: string := "../model_training/bug_predictor.pkl"

  /** Which of the three diagnostic lines startup writes. */
  datatype LoadOutcome = Loaded | NotFound | LoadFailed(reason: string)

  /** The process-wide state left by startup: the `model` variable and the line logged. */
  datatype Startup = Startup(model: Option<Classifier>, outcome: LoadOutcome)

  /** Startup never raises.  `pathExists` is what the existence test of ModelPath answers and
      `load` what deserialising ModelPath returns or raises; `load` is consulted only when the
      path exists. */
  function LoadModel(pathExists: bool, load: Result<Classifier>): (s: Startup)
    ensures s.model.Some? <==> pathExists && load.Ok?
    ensures s.model.Some? ==> s.model.value == load.value
    ensures s.outcome.Loaded? <==> s.model.Some?
    ensures s.outcome.NotFound? <==> !pathExists
    ensures s.outcome.LoadFailed? <==> pathExists && load.Err?
    ensures s.outcome.LoadFailed? ==> s.outcome.reason == load.reason
  {
    if !pathExists then Startup(None, NotFound)
    else match load
      case Ok(clf) => Startup(Some(clf), Loaded)
      case Err(e) => Startup(None, LoadFailed(e))
  }
}
