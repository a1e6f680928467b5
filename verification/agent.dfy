/** One question-and-answer turn: the prompt built around the dataset path, the
    call to the completion service, extraction of the code block and its
    execution in the sandbox (`chat_with_llm`). */
module Agent {
  import opened Common
  import opened Text
  import opened CodeBlocks
  import opened Sandbox

  datatype Role = System | User

  /** One chat message as sent to the completion service. */
  datatype Message = Message(role: Role, content: string)

  /** The request sent to the completion service. */
  datatype ChatRequest = ChatRequest(model: string, messages: seq<Message>)

  /** The completion service's answer: the message content of each choice, or
      the failure (network, authentication) that the client raises. */
  datatype Completion = Choices(contents: seq<string>) | TransportFailure(reason: string)

  /** Why a turn produced no result: the completion client raised, the
      response had no first choice to read, or the sandbox's `run_code` call
      raised. */
  datatype TurnError = CompletionFailed(reason: string) | NoChoices | SandboxFailed(reason: string)

  /** What one turn did: the request it sent, the code it submitted to the
      sandbox (`None` when the sandbox was not called), whether it warned that
      no code block was found, and the pair `chat_with_llm` returns. */
  datatype Turn = Turn(
    request: ChatRequest,
    submitted: Option<string>,
    warnedNoCode: bool,
    codeResults: Option<seq<Artifact>>,
    reply: string)

  /* The fixed text of the system prompt around the two quoted citations of
     the dataset path. */
  const PromptHead: string :=
    "You're a Python data scientist and data visualization expert.\nYou are given a dataset at path "
  const PromptMid: string :=
    " and also the user's query.\nYou need to analyze the dataset and answer the user's query with a response and you run Python code to solve them.\nIMPORTANT: Always use the dataset path variable "
  const PromptTail: string :=
    " in your code when reading the CSV file."

  /** The path between single quotes, as the prompt cites it. */
  function Quoted(path: string): (q: string)
    ensures |q| == |path| + 2 && q[1..|q| - 1] == path
  {
    "'" + path + "'"
  }

  /** The system prompt: it cites the dataset path, quoted, twice: once to say
      where the dataset is and once to require that the code reads it from
      there. */
  function SystemPrompt(datasetPath: string): (r: string)
    ensures exists i, j :: i + |Quoted(datasetPath)| <= j
                        && OccursAt(r, Quoted(datasetPath), i) && OccursAt(r, Quoted(datasetPath), j)
  {
    var q := Quoted(datasetPath);
    CitedTwice(PromptHead, q, PromptMid, PromptTail);
    PromptHead + q + PromptMid + q + PromptTail
  }

  /** `x` occurs in `a + x + b` right after `a`. */
  lemma OccursBetween(a: string, x: string, b: string)
    ensures OccursAt(a + x + b, x, |a|)
  {
  }

  /** A text `h + q + m + q + t` holds `q` at two places that do not overlap. */
  lemma CitedTwice(h: string, q: string, m: string, t: string)
    ensures var s := h + q + m + q + t;
      OccursAt(s, q, |h|) && OccursAt(s, q, |h| + |q| + |m|)
  {
    OccursBetween(h, q, m + q + t);
    assert h + q + (m + q + t) == h + q + m + q + t;
    OccursBetween(h + q + m, q, t);
  }

  /** Two texts of the shape `h + q + m + q + t` with the same frame are equal
      only if their `q` are. */
  lemma FrameDeterminesCitation(h: string, m: string, t: string, qa: string, qb: string)
    requires h + qa + m + qa + t == h + qb + m + qb + t
    ensures qa == qb
  {
    var s := h + qa + m + qa + t;
    assert |s| == |h| + 2 * |qa| + |m| + |t|;
    assert |s| == |h| + 2 * |qb| + |m| + |t|;
    CitedTwice(h, qa, m, t);
    CitedTwice(h, qb, m, t);
  }

  /** Different dataset paths give different system prompts: the prompt
      carries the path exactly. */
  lemma PromptDeterminesPath(a: string, b: string)
    requires SystemPrompt(a) == SystemPrompt(b)
    ensures a == b
  {
    FrameDeterminesCitation(PromptHead, PromptMid, PromptTail, Quoted(a), Quoted(b));
    assert a == Quoted(a)[1..|Quoted(a)| - 1];
  }

  /** The two messages of a turn, system first, the user's text verbatim. */
  function BuildMessages(userMessage: string, datasetPath: string): (m: seq<Message>)
    ensures |m| == 2
    ensures m[0].role == System && Contains(m[0].content, Quoted(datasetPath))
    ensures m[1].role == User && m[1].content == userMessage
  {
    [Message(System, SystemPrompt(datasetPath)), Message(User, userMessage)]
  }

  /** One turn. The completion service and the sandbox are the parameters
      `complete` and `run`. The reply is the first choice's content. When it
      holds no Python block the turn warns and returns no results without
      calling the sandbox; otherwise it submits exactly the extracted code. */
  function ChatWithLlm(
    complete: ChatRequest -> Completion,
    run: string -> RunOutcome,
    model: string,
    userMessage: string,
    datasetPath: string): (r: Result<Turn, TurnError>)
    ensures r.Ok? ==> r.value.request == ChatRequest(model, BuildMessages(userMessage, datasetPath))
    ensures r.Ok? ==> var t := r.value;
      && t.request.model == model
      && |t.request.messages| == 2
      && t.request.messages[0].role == System
      && Contains(t.request.messages[0].content, Quoted(datasetPath))
      && t.request.messages[1] == Message(User, userMessage)
    ensures r.Ok? ==> var c := complete(r.value.request);
      c.Choices? && |c.contents| > 0 && r.value.reply == c.contents[0]
    ensures r.Ok? ==> var t := r.value;
      && (t.submitted.None? <==> MatchCodeBlocks(t.reply) == "")
      && (t.submitted.None? ==> t.warnedNoCode && t.codeResults.None?)
      && (t.submitted.Some? ==> !t.warnedNoCode && t.submitted.value == MatchCodeBlocks(t.reply)
                                && CodeInterpret(run, t.submitted.value) == Ok(t.codeResults))
    ensures r.Err? ==> var c := complete(ChatRequest(model, BuildMessages(userMessage, datasetPath)));
      || (c.TransportFailure? && r.error == CompletionFailed(c.reason))
      || (c == Choices([]) && r.error == NoChoices)
      || (&& c.Choices? && |c.contents| > 0
          && var code := MatchCodeBlocks(c.contents[0]);
          && code != "" && run(code).Raised? && r.error == SandboxFailed(run(code).reason))
  {
    var request := ChatRequest(model, BuildMessages(userMessage, datasetPath));
    match complete(request)
    case TransportFailure(reason) => Err(CompletionFailed(reason))
    case Choices(contents) =>
      if |contents| == 0 then Err(NoChoices)
      else
        var reply := contents[0];
        var code := MatchCodeBlocks(reply);
        if code != "" then
          match CodeInterpret(run, code)
          case Err(reason) => Err(SandboxFailed(reason))
          case Ok(results) => Ok(Turn(request, Some(code), false, results, reply))
        else
          Ok(Turn(request, None, true, None, reply))
  }

  /* ----- The three end-to-end situations of a turn ----- */

  /** A reply that is one well-formed block whose code runs without error and
      displays nothing gives an empty result list, not `None`. */
  lemma CodeWithoutArtifacts(
    complete: ChatRequest -> Completion, run: string -> RunOutcome,
    model: string, userMessage: string, datasetPath: string, body: string)
    requires complete(ChatRequest(model, BuildMessages(userMessage, datasetPath)))
             == Choices([Opener + body + Closer])
    requires body != "" && !Contains(body, Closer)
    requires run(body) == Executed(Execution([], None))
    ensures var r := ChatWithLlm(complete, run, model, userMessage, datasetPath);
      r.Ok? && r.value.submitted == Some(body) && r.value.codeResults == Some([])
  {
    assert !Contains("", Opener);
    FirstBlockWins("", body, "");
    assert "" + Opener + body + Closer + "" == Opener + body + Closer;
  }

  /** A reply without a Python opener: the sandbox is not called, the turn
      warns, no results, and the reply is passed through. */
  lemma NoCodeSkipsSandbox(
    complete: ChatRequest -> Completion, run: string -> RunOutcome,
    model: string, userMessage: string, datasetPath: string, reply: string)
    requires complete(ChatRequest(model, BuildMessages(userMessage, datasetPath))) == Choices([reply])
    requires !Contains(reply, Opener)
    ensures var r := ChatWithLlm(complete, run, model, userMessage, datasetPath);
      && r.Ok? && r.value.submitted.None? && r.value.warnedNoCode
      && r.value.codeResults.None? && r.value.reply == reply
  {
  }

  /** Code that raises in the sandbox: the turn still succeeds, with no
      results and the reply passed through. */
  lemma FailingCodeKeepsReply(
    complete: ChatRequest -> Completion, run: string -> RunOutcome,
    model: string, userMessage: string, datasetPath: string, reply: string)
    requires complete(ChatRequest(model, BuildMessages(userMessage, datasetPath))) == Choices([reply])
    requires MatchCodeBlocks(reply) != ""
    requires run(MatchCodeBlocks(reply)).Executed?
    requires run(MatchCodeBlocks(reply)).execution.error.Some?
    ensures var r := ChatWithLlm(complete, run, model, userMessage, datasetPath);
      && r.Ok? && r.value.submitted == Some(MatchCodeBlocks(reply))
      && r.value.codeResults.None? && r.value.reply == reply
  {
  }

  /** A `run_code` call that raises fails the whole turn: the exception is
      not caught between the sandbox and the caller. */
  lemma RaisingSandboxFailsTurn(
    complete: ChatRequest -> Completion, run: string -> RunOutcome,
    model: string, userMessage: string, datasetPath: string, reply: string)
    requires complete(ChatRequest(model, BuildMessages(userMessage, datasetPath))) == Choices([reply])
    requires MatchCodeBlocks(reply) != ""
    requires run(MatchCodeBlocks(reply)).Raised?
    ensures ChatWithLlm(complete, run, model, userMessage, datasetPath)
            == Err(SandboxFailed(run(MatchCodeBlocks(reply)).reason))
  {
  }
}
