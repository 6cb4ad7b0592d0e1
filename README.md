# MDTranslatorPro translation job, modelled in Dafny

MDTranslatorPro translates an English Markdown document into Korean. It
splits the document into chunks and sends each chunk to a chat-completion
service. It then joins the translated units into `translations/ko_<name>`.
While it works, it publishes its progress in one process-wide
`TranslationStatus` record, which a browser polls.

This project models the core of that job in `main.py`:

- `text.dfy` (module `Text`) covers the string operations the job relies
  on:
  - Python's substring test `sub in s`;
  - `"\n\n".join(units)`;
  - the "each unit followed by a separator" accumulation of the preview;
  - the decimal rendering of the chunk counters.
- `requests.dfy` (module `Requests`) covers `translate_chunk`, a pure
  function:
  - the prompt wrapped around a chunk;
  - detecting the reasoning model family by substring;
  - the parameter dictionary (`Params`, a map from key to value), with
    exactly one token-limit key and the family's temperature;
  - the text a chunk becomes: the generated text, or the
    `"\n[Translation Error: …]\n"` placeholder when the call fails.

  The generation service is an oracle. Its answer to a call is a `Reply`,
  either `Ok(text)` or `Err(msg)`.
- `job.dfy` (module `Job`) covers the job, which is imperative:
  - `TranslationStatus` is a class with the record's six fields.
  - `Stop` models `stop_translation`.
  - `Start` models `start_translation` as far as the hand-off to the
    background task.
  - `Run` models `run_translation_task`, together with its helper methods:
    `TranslateChunks` (the loop), `TranslateNext` (one pass after the
    checkpoint) and `Finish` (the final write).

  The methods are proved against specification functions of the inputs:
  - `Texts`: the units of the first `n` chunks;
  - `Sent`: the requests sent;
  - `Preview`;
  - `Output`: the joined units;
  - `Processed`: how many chunks a run gets through before a checkpoint sees
    the stop flag;
  - `ChunkTrace` / `PollTrace`: what a poller reads at each suspension point.

  Lemmas then state the job's promises about those functions.

A run's environment is passed in as inputs:
- `replies[i]` is the service's answer to chunk `i`.
- For `i < |chunks|`, `stops[i]` says whether a stop request is served while
  chunk `i`'s call is awaited.
- `stops[|chunks|]` says whether a stop request is served while the output
  file is written.
- A stop request served before the first checkpoint shows up in the initial
  `shouldStop`.

The translations directory is an `OutputDir` object. Its ghost `files` map
records what it holds: the files already there when the job starts, and
what has been written since.

The progress percentage is `int((i / total) * 100)` in floating point in
the source; the model uses exact integer division. "Left out" says where
the two differ.

## Model

| member | source | states |
|---|---|---|
| Text.ContainsCorrect | main.py:120 | `Contains`: the left-to-right scan `Contains(s, sub)` is true exactly when `sub` occurs at some index of `s`, including the empty `sub`. |
| Text.JoinAppend | main.py:192 | `Join`: the join of two non-empty runs of units is the join of the first run, one separator, then the join of the second. |
| Text.JoinAround | main.py:192 | Unit `i` sits in the joined text between the join of the units before it and the join of the units after it. Each side has exactly one separator, and none at either end, so the output keeps the input order. |
| Text.JoinPrefix | main.py:192 | The join of the first `m` units is a prefix of the join of all of them. |
| Text.SuffixedIsJoin | main.py:186-187 | Appending `unit + sep` for each unit of a non-empty list gives the join of the list followed by one `sep`. |
| Text.Decimal | main.py:179 | `Decimal`: the rendering of a counter is non-empty and made of decimal digits only. |
| Text.DecimalRoundTrip | main.py:179 | Reading the rendered digits back gives the counter, so the counters in "Translating chunk i+1 of total..." lose nothing. |
| Requests.IsReasoningModelCorrect | main.py:120 | `IsReasoningModel`: the model is treated as a reasoning model exactly when "o1", "o3" or "gpt-5" occurs somewhere in its name. |
| Requests.ReasoningRequest | main.py:119-126 | `BuildParams`: for a reasoning-family model, the request has `max_completion_tokens` set to the configured budget, `temperature` set to 1, and no `max_tokens`. |
| Requests.StandardRequest | main.py:127-130 | `BuildParams`: for any other model, the request has `max_tokens` set to the configured budget, `temperature` set to 0, and no `max_completion_tokens`. |
| Requests.OneTokenLimit | main.py:113-130 | `BuildParams`: every request has exactly four keys: `model`, `messages`, `temperature`, and exactly one of the two token-limit keys. |
| Requests.RequestCarriesChunk | main.py:101-117 | The request names the configured model and carries exactly one message, with role "user". The chunk can be recovered from that message's content. |
| Requests.PromptRoundTrip | main.py:102-110 | `Prompt`: the prompt is the fixed instruction text, then the chunk, then one newline; the chunk can be read back out of it. |
| Requests.ErrorRoundTrip | main.py:134-137 | `ErrorPlaceholder`: the failure description can be recovered from the error placeholder. |
| Requests.TranslateChunkResult | main.py:101-137 | `TranslateChunk` and `ReplyText`: a successful call yields the generated text unchanged. A failed call yields exactly `"\n[Translation Error: " + msg + "]\n"`, from which `msg` can be recovered. The request sent is the one built for the chunk and configuration. |
| Requests.O1PreviewIsReasoning | main.py:120 | "o1-preview" belongs to the reasoning family. |
| Requests.Gpt4oIsStandard | main.py:120 | "gpt-4o", the default model, does not belong to the reasoning family. |
| Job.ChunkStepInjective | main.py:179 | `ChunkStep`: the step text "Translating chunk i+1 of total..." determines both the chunk index and the total. |
| Job.OutputName | main.py:193 | The output name is "ko_" followed by the uploaded file name, which can be read back from it. |
| Job.FirstTrue | main.py:173-177 | The index returned is the first set flag, or the length when no flag is set: every earlier flag is clear. |
| Job.Processed | main.py:173-177 | The number of chunks a run processes is at most the number of chunks. No checkpoint before it reads the stop flag set, and the checkpoint at it does when it is below the total. |
| Job.StopsOfCompletedRun | main.py:173-177 | In a run that passed every checkpoint, the stop flag ends set exactly when it was set before the run or some stop request was served during it. |
| Job.ProgressBelowFull | main.py:180 | `Progress`: while a chunk is in flight, the percentage is between 0 and 99. |
| Job.ProgressMonotone | main.py:180 | `Progress`: a later chunk never shows a smaller percentage. |
| Job.ChunkTraceProgress | main.py:178-183 | During the chunk phase a poller reads one snapshot per processed chunk, in order. Snapshot `j` shows chunk `j`'s percentage, "Translating chunk j+1 of total...", the job running, the preview of the chunks before `j`, and the result file the run started with. Each percentage is below 100, and none is below an earlier one. |
| Job.PollTraceProgress | main.py:178-197 | Over a whole run, a poller reads the job as running, with the result file the run started with. While chunk `j`'s call is awaited, it reads that chunk's step and the preview of the chunks before it. While the output is written, it reads "Finalizing..." and the full preview. Progress never decreases. It stays below 100 while chunks are in flight, and reads 100 exactly in the final snapshot of a completed run. |
| Job.SingleChunkTrace | main.py:180-189 | A one-chunk document is polled at 0 with an empty preview, and then at 100 with that chunk's unit and "\n\n" as the preview. |
| Job.TextsAt | main.py:182-183 | `Texts`: there is one unit per processed chunk, in chunk order, and chunk `i`'s unit is what its reply yields. |
| Job.SentAt | main.py:182-183 | `Sent`: there is one request per processed chunk, in chunk order, and chunk `i`'s request is the one built for that chunk and the configuration. |
| Job.TextsPrefix | main.py:182-183 | The units of the first `m` chunks are the opening of the units of the first `n`. |
| Job.FailureMarkedInPlace | main.py:182-192 | A failed call's error placeholder stands in that chunk's place in the output, between the units before it and after it. Its description can be recovered from it. |
| Job.PreviewSuffixed | main.py:186-187 | `Preview`: the preview is the units of the first min(3, n) chunks, each followed by "\n\n". |
| Job.PreviewIsOutputStart | main.py:185-192 | After at least one chunk, the preview is the join of the first min(3, n) units plus "\n\n", and that join is a prefix of the output over the first `n` units. |
| Job.PreviewStable | main.py:185-187 | Chunks after the third leave the preview unchanged. |
| Job.OutputDir.constructor | main.py:32-33 | The translations directory starts with the files it already holds: `os.makedirs(..., exist_ok=True)` keeps an existing directory as it is. |
| Job.TranslationStatus.constructor | main.py:35-42 | A fresh status has progress 0, empty step, result file and preview, and both flags cleared. |
| Job.TranslationStatus.Stop | main.py:156-160 | Sets the stop flag and the step "Stopping translation...". Nothing else changes, so the status stays well formed. |
| Job.TranslationStatus.Start | main.py:139-154 | An empty API key is rejected with 400 and "API Key is missing. Please set it in settings.", and the status is left untouched. Otherwise the stop flag is cleared, nothing else changes, and the job is started. The status stays well formed either way. |
| Job.TranslationStatus.Run | main.py:162-201 | The run ends not running. While in flight it reads as running: poll snapshots follow `PollTrace`, whose properties `PollTraceProgress` states. It sends exactly the requests of the first `k` chunks, where `k` is the number processed, and the preview covers those chunks. If stopped at checkpoint `k`: the step is "Translation stopped by user.", progress is that of the last chunk sent (0 if none), and the result file and directory are unchanged. If completed: the step is "Translation complete!" and progress is 100. `ko_<filename>` then holds the "\n\n"-join of all units in order (the empty text for no chunks) and is the result file; the stop flag records any stop request served. |
| Job.TranslationStatus.TranslateChunks | main.py:170-187 | The loop leaves through a checkpoint exactly when fewer than all chunks are processed. Its units, preview, requests, snapshots and progress are those of the processed chunks. When it stops, the step is "Translation stopped by user." and the job is not running. Otherwise the job is still running, the stop flag records every stop served, and the step is the one announced for the last chunk, or "Stopping translation..." when a stop was served during that chunk's call (the step the run started with, for no chunks). |
| Job.TranslationStatus.TranslateNext | main.py:179-187 | One pass sets the step and the progress for chunk `i`; a poller during the call reads them, with the running flag, preview and result file from before the pass. The step ends as "Translating chunk i+1 of total...", or "Stopping translation..." when a stop is served during the call. It sends the chunk's request and yields its reply's text. The preview grows by that text and "\n\n" only for the first three chunks, and the stop flag additionally records a stop served during the call. |
| Job.TranslationStatus.Finish | main.py:189-201 | Reads 100 / "Finalizing..." while writing, writes the joined units under `ko_<filename>`, and records that name as the result file. It ends with "Translation complete!", not running. |

## Left out

- The Markdown splitter (`MarkdownTextSplitter`, chunk size 2000, overlap
  200) is third-party code: the chunks are an input.
- The OpenAI client and the network are not modelled. Each call's answer is
  an input `Reply`, and an exception is reduced to its message.
- `response.choices[0].message.content` can be `None` in the client library.
  The model always has a string; the `Run` line above says what the source
  does with `None`.
- Concurrency is not modelled; asyncio tasks are treated as sequential:
  - Only the interleavings at the two await points are modelled: the
    generation call and the file write.
  - Two overlapping jobs are not modelled. `start_translation` does not
    check `is_running`, so a second upload would share the status record
    with the first.
- Job.TranslationStatus.Start: reading and UTF-8 decoding of the upload are
  not modelled, and neither is the call to the splitter. The background
  task is started by a separate call of `Run`.
- Job.TranslationStatus.Run: the snapshots a poller reads are recorded only
  at the await points, which are the only points where another handler can
  run. Each is taken as the await begins. When a stop is served during an
  await, a poller later at that same await reads "Stopping translation..."
  (main.py:159); the trace does not record that second read.
- Job.TranslationStatus.Run: every reply is a string and the output write
  succeeds. In the source, a `None` reply makes `None + "\n\n"` (main.py:187)
  or the join (main.py:192) raise, and `aiofiles.open` or `write`
  (main.py:196-197) can raise. Either exception leaves `is_running` True for
  good, leaves the step at "Translating chunk …" or "Finalizing...", and
  sets no result file. The model's `ensures !isRunning` covers neither case.
- Job.Progress: the source computes `int((i / total) * 100)` in floating
  point. The model uses exact integer division `i*100/total`. They can
  differ by one: for `i = 29, total = 100` the source shows 28.
- The file write goes through `aiofiles` with UTF-8 encoding and `os.path`.
  The model records it as a ghost map from name to text.
- The `print` of the error message is not modelled.
- The FastAPI routes are not modelled: `index`, `get_config`,
  `update_config`, `get_status` (a plain read of the record) and
  `download_file`.
- Configuration loading and saving, and the model list, are not modelled:
  `load_config`, `save_config`, `get_available_models`, environment
  variables.
- Resource paths, the browser launcher and the uvicorn startup are not
  modelled.
