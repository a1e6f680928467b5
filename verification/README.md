# AI Data Visualization Agent — a Dafny model of its decision logic

The app lets a user upload a CSV file and ask a question about it. It sends a
dataset-aware prompt to a hosted language model (Together AI), pulls the first
```` ```python ```` block out of the reply, runs that code in a remote E2B
sandbox and displays each result according to what it is (image, matplotlib
figure, plotly chart, dataframe, anything else).

This project models the deterministic core of `ai_data_visualisation_agent.py`
as pure Dafny functions, with the two network services and the sandbox file
write passed in as function-typed parameters:

- `common.dfy` — `Option` and `Result` (a `Result` error stands for a Python
  exception that propagates).
- `text.dfy` — substring occurrence and first occurrence at or after an index.
- `code_blocks.dfy` — `match_code_blocks`: the regex
  ```` ```python\n(.*?)\n``` ```` with DOTALL and `re.search`, written without a
  regex engine (leftmost opener, then the first closer after it), and proved
  equal to a declarative description of the regex search.
- `sandbox.dfy` — the artifact capabilities and `code_interpret`'s result logic.
- `rendering.dfy` — the display dispatch of `main`, proved to pick the most
  preferred category an artifact offers.
- `agent.dfy` — `chat_with_llm`: the system prompt, the two messages, the branch
  on empty extracted code and the sandbox call.
- `app.dfy` — `upload_dataset` and the Analyze action of `main`.

Two details of the code shape the model: a block body may be empty or a
single line, and `"```python\n\n```"` matches with an empty group, which
`chat_with_llm` treats as no code; and the results are classified in `main`,
not in `chat_with_llm`.

## Model

| member | source | states |
|---|---|---|
| CodeBlocks.MatchCodeBlocks | ai_data_visualisation_agent.py:51-54 | a non-empty result occurs in the reply verbatim between "```python\n" and "\n```"; the result never contains "\n```"; a reply without "```python\n" gives "" |
| CodeBlocks.ExtractorIsRegexSearch | ai_data_visualisation_agent.py:22 | either the pattern matches and the result is the group of the leftmost, lazily closed match, or the pattern matches nowhere and the result is "" |
| CodeBlocks.FirstMatchIsExtracted | ai_data_visualisation_agent.py:53 | whenever a match is the one `re.search` reports (leftmost start, first closer), the result is exactly its group |
| CodeBlocks.NoMatchGivesEmpty | ai_data_visualisation_agent.py:54 | when the pattern matches nowhere the result is "" |
| CodeBlocks.LeftmostOpenerWithoutCloser | ai_data_visualisation_agent.py:22 | if the leftmost opener has no closer after it, no later opener has one, so the pattern matches nowhere |
| CodeBlocks.FirstBlockWins | ai_data_visualisation_agent.py:22 | text without an opener, then an opener, a body without "\n```", the closer and anything at all (further blocks, "python" glued to the fence) gives exactly that body |
| CodeBlocks.EmptyBlocksYieldEmpty | ai_data_visualisation_agent.py:22 | "```python\n```" (no newline before the fence) and "```python\n\n```" (empty body) both give "" |
| Sandbox.CodeInterpret | ai_data_visualisation_agent.py:34-48 | a raising `run_code` call is an error carrying its reason; otherwise the result is None exactly when the execution reports an error, and the execution's result list unchanged when it does not |
| Rendering.Classify | ai_data_visualisation_agent.py:156-167 | for each category, the conditions under which an artifact falls in it: a non-empty png wins, then figure, then show, then DataFrame/Series, else raw |
| Rendering.ClassifyIsMostPreferred | ai_data_visualisation_agent.py:156-167 | the chosen category is one the artifact offers and ranks no lower than any other category it offers |
| Rendering.MostPreferredIsClassify | ai_data_visualisation_agent.py:156-167 | conversely, the most preferred category an artifact offers is the one chosen |
| Rendering.PngBeatsShow | ai_data_visualisation_agent.py:156-163 | an artifact with a non-empty png and a show attribute is shown as an image |
| Rendering.RenderResults | ai_data_visualisation_agent.py:154-167 | nothing is shown for None or an empty list; otherwise one item per result, same order, each with its artifact and category |
| Agent.SystemPrompt | ai_data_visualisation_agent.py:59-62 | the prompt cites the quoted dataset path at two non-overlapping places |
| Agent.PromptDeterminesPath | ai_data_visualisation_agent.py:59-62 | different dataset paths give different system prompts |
| Agent.BuildMessages | ai_data_visualisation_agent.py:64-67 | exactly two messages: a system message citing the quoted dataset path, then a user message equal to the query |
| Agent.ChatWithLlm | ai_data_visualisation_agent.py:57-84 | the request carries the model and the two messages; the reply is the first choice's content unchanged; the sandbox is called, with exactly the extracted code, iff that code is non-empty, else a warning and no results; the request is exactly the model with the two built messages; a failed or empty completion, or a raising sandbox call, is an error and nothing else is |
| Agent.CodeWithoutArtifacts | ai_data_visualisation_agent.py:76-81 | a reply that is one block whose code runs cleanly and yields nothing gives an empty result list, not None |
| Agent.NoCodeSkipsSandbox | ai_data_visualisation_agent.py:79-84 | a reply without an opener: no sandbox call, a warning, no results, the reply passed through |
| Agent.FailingCodeKeepsReply | ai_data_visualisation_agent.py:79-81 | code that raises in the sandbox: the turn succeeds with no results and the reply passed through |
| Agent.RaisingSandboxFailsTurn | ai_data_visualisation_agent.py:79-81 | a `run_code` call that raises fails the turn with that reason |
| App.DatasetPath | ai_data_visualisation_agent.py:89 | the path is "./" followed by the file name, which it determines |
| App.DatasetPathInjective | ai_data_visualisation_agent.py:89 | different file names give different paths |
| App.UploadDataset | ai_data_visualisation_agent.py:87-95 | on success the returned path is "./" + the file name, the very path whose write succeeded; a failed write is returned as the error |
| App.Analyze | ai_data_visualisation_agent.py:147-167 | the action fails with UploadFailed exactly when the dataset write fails; after a successful write it fails with ChatFailed exactly when the turn fails, with the turn's error; on success the path is "./" + the file name, the turn is the one run on that path, the prompt cites the written path, and every result of that turn is displayed in order in its category |

## Left out

- Streamlit presentation (title, sidebar, key and model inputs, dataset preview, spinners, `st.warning`/`st.error` text): the warning is modelled only as the flag `Turn.warnedNoCode`.
- The API-key check before the sandbox is opened (lines 144-145): UI input validation.
- The Together client and the E2B sandbox are the parameters `complete`, `run` and `write`. Their failures are modelled as outcomes (`TransportFailure`, `Raised`, a write error) that end the action; timeouts, retries, the sandbox context manager (line 147) and credentials are not modelled.
- Redirection of stdout/stderr, warning suppression and the diagnostic prints in `code_interpret` (lines 19, 28-45): process output with no effect on return values.
- Base64 decoding, PIL, `pd.read_csv` and the Streamlit display calls: only the category decision is modelled.
- Agent.ChatWithLlm: a `None` message content from the completion service (which would make the regex search raise) is not modelled; the content is always a string.
- Concrete examples of ignored tags (```` ```py ````, ```` ```python3 ````, untagged fences) are not stated one by one; they are covered by the general statement that a reply without "```python\n" gives "".
