/** The "Analyze" action of the app: stage the uploaded dataset in the
    sandbox, run one turn about it, and decide how each result is displayed
    (`upload_dataset` and the body of `main` under the Analyze button). */
module App {
  import opened Common
  import opened Text
  import opened Sandbox
  import opened Rendering
  import opened Agent

  /** The sandbox path an uploaded file is written to: the file name in the
      working directory. */
  function DatasetPath(fileName: string): (path: string)
    ensures |path| == |fileName| + 2 && path[..2] == "./" && path[2..] == fileName
  {
    "./" + fileName
  }

  /** Writes the uploaded bytes into the sandbox through `write` (which
      returns the error it raised, if any) and returns the path. A failed write
      propagates. */
  function UploadDataset(write: (string, seq<bv8>) -> Option<string>, fileName: string, data: seq<bv8>)
    : (r: Result<string, string>)
    ensures r.Ok? ==> r.value == DatasetPath(fileName) && write(r.value, data).None?
    ensures r.Ok? ==> |r.value| >= 2 && r.value[2..] == fileName
    ensures r.Err? ==> write(DatasetPath(fileName), data) == Some(r.error)
  {
    var path := DatasetPath(fileName);
    match write(path, data)
    case Some(error) => Err(error)
    case None => Ok(path)
  }

  /** The path of a file is determined by its name, and vice versa. */
  lemma DatasetPathInjective(a: string, b: string)
    requires DatasetPath(a) == DatasetPath(b)
    ensures a == b
  {
  }

  /** Why the Analyze action stopped. */
  datatype AppError = UploadFailed(reason: string) | ChatFailed(error: TurnError)

  /** What the Analyze action produced: the dataset path, the turn, and what
      is displayed below the reply. */
  datatype Analysis = Analysis(datasetPath: string, turn: Turn, shown: seq<Rendered>)

  /** The Analyze action. A failed upload stops it before the completion
      service is called; otherwise the dataset path that was written is the
      one the prompt cites, and every result of the turn is displayed, in
      order, in its category. */
  method Analyze(
    write: (string, seq<bv8>) -> Option<string>,
    complete: ChatRequest -> Completion,
    run: string -> RunOutcome,
    model: string,
    fileName: string,
    data: seq<bv8>,
    query: string)
    returns (r: Result<Analysis, AppError>)
    ensures write(DatasetPath(fileName), data).Some? <==> r.Err? && r.error.UploadFailed?
    ensures write(DatasetPath(fileName), data).None? ==>
      var chat := ChatWithLlm(complete, run, model, query, DatasetPath(fileName));
      && (r.Err? <==> chat.Err?)
      && (r.Err? ==> r.error == ChatFailed(chat.error))
    ensures r.Ok? ==> r.value.datasetPath == DatasetPath(fileName)
    ensures r.Ok? ==> ChatWithLlm(complete, run, model, query, r.value.datasetPath) == Ok(r.value.turn)
    ensures r.Ok? ==> var path, messages := r.value.datasetPath, r.value.turn.request.messages;
      && write(path, data).None?
      && |path| >= 2 && path[2..] == fileName
      && |messages| == 2
      && Contains(messages[0].content, Quoted(path))
      && messages[1].content == query
    ensures r.Ok? ==> var results, shown := r.value.turn.codeResults, r.value.shown;
      && (results.None? ==> shown == [])
      && (results.Some? ==> |shown| == |results.value|)
      && (results.Some? ==> forall i :: 0 <= i < |shown| ==>
            shown[i] == Rendered(Classify(results.value[i]), results.value[i]))
  {
    var upload := UploadDataset(write, fileName, data);
    if upload.Err? {
      return Err(UploadFailed(upload.error));
    }
    var path := upload.value;
    var chat := ChatWithLlm(complete, run, model, query, path);
    if chat.Err? {
      return Err(ChatFailed(chat.error));
    }
    var shown := RenderResults(chat.value.codeResults);
    return Ok(Analysis(path, chat.value, shown));
  }
}
