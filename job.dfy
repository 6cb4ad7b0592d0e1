/** The translation job: the shared status record, the handlers that start
    and stop a job, and the runner that walks the chunks in order
    (`TranslationStatus`, `start_translation`, `stop_translation`,
    `run_translation_task`). */
module Job {
  import opened Text
  import opened Requests

  const STARTING := "Starting translation..."
  const STOPPING := "Stopping translation..."
  const STOPPED := "Translation stopped by user."
  const FINALIZING := "Finalizing..."
  const COMPLETE := "Translation complete!"
  const MISSING_KEY := "API Key is missing. Please set it in settings."
  const BAD_REQUEST := 400

  /** Separator between translated units in the output and in the preview. */
  const SEPARATOR := "\n\n"
  const OUTPUT_PREFIX := "ko_"
  /** How many leading units the preview shows. */
  const PREVIEW_UNITS := 3

  function Min(a: int, b: int): int {
    if a <= b then a else b
  }

  /** Progress text while chunk `i` (0-based) of `total` is being translated. */
  function ChunkStep(i: nat, total: nat): string {
    "Translating chunk " + (Decimal(i + 1) + (" of " + (Decimal(total) + "...")))
  }

  /** The step text names the chunk and the total it was built from: no two
      different (chunk, total) pairs announce the same text. */
  lemma ChunkStepInjective(i: nat, total: nat, j: nat, total': nat)
    requires ChunkStep(i, total) == ChunkStep(j, total')
    ensures i == j && total == total'
  {
    var a1, b1 := Decimal(i + 1), Decimal(total);
    var a2, b2 := Decimal(j + 1), Decimal(total');
    var t1, t2 := " of " + (b1 + "..."), " of " + (b2 + "...");
    PrefixCancels("Translating chunk ", a1 + t1, a2 + t2);
    DigitsSplit(a1, t1, a2, t2);
    PrefixCancels(" of ", b1 + "...", b2 + "...");
    DigitsSplit(b1, "...", b2, "...");
    DecimalRoundTrip(i + 1);
    DecimalRoundTrip(j + 1);
    DecimalRoundTrip(total);
    DecimalRoundTrip(total');
  }

  lemma PrefixCancels<T>(p: seq<T>, x: seq<T>, y: seq<T>)
    requires p + x == p + y
    ensures x == y
  {
    assert x == (p + x)[|p|..];
    assert y == (p + y)[|p|..];
  }

  /** Percentage shown while chunk `i` of `total` is being translated. */
  function Progress(i: nat, total: nat): int
    requires total > 0
  {
    i * 100 / total
  }

  /** Name of the artifact a job on `filename` writes. */
  function OutputName(filename: string): (name: string)
    ensures OUTPUT_PREFIX <= name && name[|OUTPUT_PREFIX|..] == filename
  {
    OUTPUT_PREFIX + filename
  }

  /** The units the first `n` chunks contribute, in chunk order. */
  function Texts(replies: seq<Reply>, n: nat): seq<string>
    requires n <= |replies|
  {
    if n == 0 then [] else Texts(replies, n - 1) + [ReplyText(replies[n - 1])]
  }

  /** What chunk `i`'s unit adds to the preview: itself and a blank line
      for one of the first `PREVIEW_UNITS` chunks, nothing after those. */
  function PreviewPart(i: nat, unit: string): string {
    if i < PREVIEW_UNITS then unit + SEPARATOR else ""
  }

  /** The preview after the first `n` chunks, built chunk by chunk. */
  function Preview(replies: seq<Reply>, n: nat): string
    requires n <= |replies|
  {
    if n == 0 then "" else Preview(replies, n - 1) + PreviewPart(n - 1, ReplyText(replies[n - 1]))
  }

  /** The complete output: every unit, in order, separated by a blank line. */
  function Output(units: seq<string>): string {
    Join(units, SEPARATOR)
  }

  /** Index of the first true flag, or `|flags|` when there is none. */
  function FirstTrue(flags: seq<bool>): (k: nat)
    ensures k <= |flags|
    ensures k < |flags| ==> flags[k]
    ensures forall j :: 0 <= j < k ==> !flags[j]
    decreases |flags|
  {
    if flags == [] then 0
    else if flags[0] then 0
    else 1 + FirstTrue(flags[1..])
  }

  /** The stop flag as checkpoint `i` reads it: set before the run, or by a
      stop request served during one of the first `i` generation calls. */
  ghost predicate StopSeen(initial: bool, stops: seq<bool>, i: nat)
    requires i <= |stops|
  {
    initial || exists j :: 0 <= j < i && stops[j]
  }

  /** How many chunks a run processes: the first checkpoint that reads the
      stop flag set, or all `n` chunks when no checkpoint does. */
  ghost function Processed(initial: bool, stops: seq<bool>, n: nat): (k: nat)
    requires n <= |stops|
    ensures k <= n
    ensures k < n ==> StopSeen(initial, stops, k)
    ensures forall i :: 0 <= i < k ==> !StopSeen(initial, stops, i)
  {
    var f := FirstTrue(stops);
    if initial then 0 else Min(n, f + 1)
  }

  /** In a run where every checkpoint read the stop flag clear, the flag is
      set at the end exactly when it was set before the run or some stop
      request was served during it. */
  lemma StopsOfCompletedRun(initial: bool, stops: seq<bool>, n: nat)
    requires |stops| == n + 1 && Processed(initial, stops, n) == n
    ensures (StopSeen(initial, stops, n) || stops[n]) == (initial || true in stops)
  {
    if true in stops {
      var j :| 0 <= j < |stops| && stops[j];
      if j < n {
        assert StopSeen(initial, stops, n);
      }
    }
  }

  /** The requests sent for the first `n` chunks, in chunk order. */
  function Sent(chunks: seq<string>, config: Config, n: nat): seq<Params>
    requires n <= |chunks|
  {
    if n == 0 then [] else Sent(chunks, config, n - 1) + [BuildParams(chunks[n - 1], config)]
  }

  /** There is one request per processed chunk, in chunk order, and chunk
      `i`'s request is the one built for it. */
  lemma {:induction false} SentAt(chunks: seq<string>, config: Config, n: nat, i: nat)
    requires i < n <= |chunks|
    ensures |Sent(chunks, config, n)| == n
    ensures Sent(chunks, config, n)[i] == BuildParams(chunks[i], config)
  {
    SentLength(chunks, config, n - 1);
    if i < n - 1 {
      SentAt(chunks, config, n - 1, i);
    }
  }

  lemma {:induction false} SentLength(chunks: seq<string>, config: Config, n: nat)
    requires n <= |chunks|
    ensures |Sent(chunks, config, n)| == n
  {
    if n > 0 {
      SentLength(chunks, config, n - 1);
    }
  }

  /** The step the runner last announced after passing `n` checkpoints:
      `first` before any, then the step of the last chunk sent, or the stop
      notice when a stop request was served during its call. */
  function StepAfter(first: string, stops: seq<bool>, n: nat, total: nat): string
    requires n <= total && n <= |stops|
  {
    if n == 0 then first else if stops[n - 1] then STOPPING else ChunkStep(n - 1, total)
  }

  /** What a poller reads (`get_status`) while the runner is suspended. */
  datatype Snapshot = Snapshot(progress: int, step: string, running: bool,
                               preview: string, resultFile: string)

  /** What a poller reads while chunk `j`'s generation call is awaited, in a
      run over one chunk per reply that started with `resultFile` recorded. */
  function ChunkSnapshot(replies: seq<Reply>, j: nat, resultFile: string): Snapshot
    requires j < |replies|
  {
    Snapshot(Progress(j, |replies|), ChunkStep(j, |replies|), true, Preview(replies, j), resultFile)
  }

  /** What a poller reads while the output is written. */
  function WriteSnapshot(replies: seq<Reply>, resultFile: string): Snapshot {
    Snapshot(100, FINALIZING, true, Preview(replies, |replies|), resultFile)
  }

  /** Snapshots while the first `k` generation calls are awaited. */
  function ChunkTrace(replies: seq<Reply>, k: nat, resultFile: string): seq<Snapshot>
    requires k <= |replies|
  {
    if k == 0 then [] else ChunkTrace(replies, k - 1, resultFile) + [ChunkSnapshot(replies, k - 1, resultFile)]
  }

  /** Snapshots over a run that processed `k` chunks, with the one taken
      while the output is written when the run completed. */
  function PollTrace(replies: seq<Reply>, k: nat, completed: bool, resultFile: string): seq<Snapshot>
    requires k <= |replies|
  {
    ChunkTrace(replies, k, resultFile) + (if completed then [WriteSnapshot(replies, resultFile)] else [])
  }

  /** The percentage while a chunk is in flight stays below 100. */
  lemma ProgressBelowFull(i: nat, total: nat)
    requires i < total
    ensures 0 <= Progress(i, total) < 100
  {
    assert i * 100 < total * 100;
  }

  /** A later chunk never shows a smaller percentage. */
  lemma ProgressMonotone(i: nat, j: nat, total: nat)
    requires i <= j && total > 0
    ensures Progress(i, total) <= Progress(j, total)
  {
    DivMonotone(i * 100, j * 100, total);
  }

  lemma {:induction false} MulLess(d: nat, x: nat, y: nat)
    requires d > 0 && x < y
    ensures d * x + d <= d * y
    decreases y - x
  {
    assert d * y == d * (y - 1) + d;
    if x < y - 1 {
      MulLess(d, x, y - 1);
    }
  }

  lemma DivMonotone(a: nat, b: nat, d: nat)
    requires a <= b && d > 0
    ensures a / d <= b / d
  {
    var p, q := a / d, b / d;
    if q < p {
      MulLess(d, q, p);
    }
  }

  /** The snapshots of the chunk phase: one per processed chunk, in order. */
  lemma {:induction false} ChunkTraceLength(replies: seq<Reply>, k: nat, resultFile: string)
    requires k <= |replies|
    ensures |ChunkTrace(replies, k, resultFile)| == k
  {
    if k > 0 {
      ChunkTraceLength(replies, k - 1, resultFile);
    }
  }

  lemma {:induction false} ChunkTraceAt(replies: seq<Reply>, k: nat, resultFile: string, j: nat)
    requires j < k <= |replies|
    ensures |ChunkTrace(replies, k, resultFile)| == k
    ensures ChunkTrace(replies, k, resultFile)[j] == ChunkSnapshot(replies, j, resultFile)
  {
    var before := ChunkTrace(replies, k - 1, resultFile);
    ChunkTraceLength(replies, k - 1, resultFile);
    if j < k - 1 {
      ChunkTraceAt(replies, k - 1, resultFile, j);
      AppendKeeps(before, ChunkSnapshot(replies, k - 1, resultFile), j);
    } else {
      AppendLast(before, ChunkSnapshot(replies, k - 1, resultFile));
    }
  }

  lemma AppendKeeps<T>(a: seq<T>, x: T, j: nat)
    requires j < |a|
    ensures |a + [x]| == |a| + 1 && (a + [x])[j] == a[j]
  {
  }

  lemma AppendLast<T>(a: seq<T>, x: T)
    ensures |a + [x]| == |a| + 1 && (a + [x])[|a|] == x
  {
  }

  /** The snapshots of the chunk phase are each below 100, and none is below
      an earlier one. */
  lemma ChunkTraceProgress(replies: seq<Reply>, k: nat, resultFile: string)
    requires k <= |replies|
    ensures var t := ChunkTrace(replies, k, resultFile);
            |t| == k &&
            (forall j :: 0 <= j < k ==> t[j] == ChunkSnapshot(replies, j, resultFile)) &&
            (forall j :: 0 <= j < k ==> 0 <= t[j].progress < 100) &&
            (forall a, b :: 0 <= a <= b < k ==> t[a].progress <= t[b].progress)
  {
    ChunkTraceLength(replies, k, resultFile);
    var t := ChunkTrace(replies, k, resultFile);
    forall j | 0 <= j < k ensures t[j] == ChunkSnapshot(replies, j, resultFile) {
      ChunkTraceAt(replies, k, resultFile, j);
    }
    forall j | 0 <= j < k ensures 0 <= t[j].progress < 100 {
      ProgressBelowFull(j, |replies|);
    }
    forall a, b | 0 <= a <= b < k ensures t[a].progress <= t[b].progress {
      ProgressMonotone(a, b, |replies|);
    }
  }

  /** Over a run, a poller sees the job running throughout, with the step
      of the chunk in flight, the preview of the chunks before it, and the
      result file of the previous job. Progress never goes down, stays below
      100 while chunks are in flight, and reaches 100 only while the output
      of a completed run is written, with the full preview. */
  lemma PollTraceProgress(replies: seq<Reply>, k: nat, completed: bool, resultFile: string)
    requires k <= |replies| && (completed ==> k == |replies|)
    ensures var t := PollTrace(replies, k, completed, resultFile);
            |t| == k + (if completed then 1 else 0) &&
            (forall j :: 0 <= j < |t| ==> t[j].running && t[j].resultFile == resultFile) &&
            (forall j :: 0 <= j < k ==>
               0 <= t[j].progress < 100 && t[j].step == ChunkStep(j, |replies|) &&
               t[j].preview == Preview(replies, j)) &&
            (completed ==> t[k].step == FINALIZING && t[k].preview == Preview(replies, |replies|)) &&
            (forall j :: 0 <= j < |t| ==> (t[j].progress == 100 <==> completed && j == k)) &&
            (forall a, b :: 0 <= a <= b < |t| ==> t[a].progress <= t[b].progress)
  {
    ChunkTraceProgress(replies, k, resultFile);
  }

  /** A one-chunk document is polled at 0 with an empty preview, and then
      at 100 with that chunk's unit as the preview. */
  lemma SingleChunkTrace(reply: Reply, resultFile: string)
    ensures var t := PollTrace([reply], 1, true, resultFile);
            |t| == 2 && t[0].progress == 0 && t[0].preview == "" &&
            t[1].progress == 100 && t[1].preview == ReplyText(reply) + SEPARATOR
  {
    ChunkTraceAt([reply], 1, resultFile, 0);
    assert Preview([reply], 0) == "";
    assert Preview([reply], 1) == ReplyText(reply) + SEPARATOR;
  }

  /** There is one unit per reply, in reply order; a failed call's unit is
      its error placeholder. */
  lemma {:induction false} TextsAt(replies: seq<Reply>, n: nat, i: nat)
    requires i < n <= |replies|
    ensures |Texts(replies, n)| == n
    ensures Texts(replies, n)[i] == ReplyText(replies[i])
  {
    TextsLength(replies, n - 1);
    if i < n - 1 {
      TextsAt(replies, n - 1, i);
    }
  }

  lemma {:induction false} TextsLength(replies: seq<Reply>, n: nat)
    requires n <= |replies|
    ensures |Texts(replies, n)| == n
  {
    if n > 0 {
      TextsLength(replies, n - 1);
    }
  }

  /** A failed generation call leaves its error placeholder in that chunk's
      place in the output, between the units before it and after it. */
  lemma FailureMarkedInPlace(replies: seq<Reply>, i: nat)
    requires i < |replies| && replies[i].Err?
    ensures var units := Texts(replies, |replies|);
            |units| == |replies| &&
            ErrorMessage(units[i]) == Some(replies[i].msg) &&
            Output(units) ==
              Output(units[..i]) + (if i == 0 then "" else SEPARATOR) + units[i] +
              (if i == |units| - 1 then "" else SEPARATOR + Output(units[i + 1..]))
  {
    TextsAt(replies, |replies|, i);
    ErrorRoundTrip(replies[i].msg);
    JoinAround(Texts(replies, |replies|), i, SEPARATOR);
  }

  /** The units of the first `m` chunks open the units of the first `n`. */
  lemma {:induction false} TextsPrefix(replies: seq<Reply>, m: nat, n: nat)
    requires m <= n <= |replies|
    ensures |Texts(replies, n)| == n && Texts(replies, n)[..m] == Texts(replies, m)
  {
    TextsLength(replies, n);
    if m < n {
      TextsPrefix(replies, m, n - 1);
      assert Texts(replies, n)[..n - 1] == Texts(replies, n - 1);
    }
  }

  /** The preview is the first `PREVIEW_UNITS` units, each followed by a
      blank line. */
  lemma {:induction false} PreviewSuffixed(replies: seq<Reply>, n: nat)
    requires n <= |replies|
    ensures Preview(replies, n) == Suffixed(Texts(replies, Min(PREVIEW_UNITS, n)), SEPARATOR)
  {
    if n > 0 {
      PreviewSuffixed(replies, n - 1);
      if n - 1 < PREVIEW_UNITS {
        TextsLength(replies, n);
        assert Texts(replies, n)[..n - 1] == Texts(replies, n - 1);
      }
    }
  }

  /** The preview is the opening of the output: the join of the first
      `PREVIEW_UNITS` units, then a blank line. */
  lemma PreviewIsOutputStart(replies: seq<Reply>, n: nat)
    requires 0 < n <= |replies|
    ensures var m := Min(PREVIEW_UNITS, n);
            Preview(replies, n) == Output(Texts(replies, m)) + SEPARATOR &&
            Output(Texts(replies, m)) <= Output(Texts(replies, n))
  {
    var m := Min(PREVIEW_UNITS, n);
    PreviewSuffixed(replies, n);
    TextsLength(replies, m);
    SuffixedIsJoin(Texts(replies, m), SEPARATOR);
    TextsPrefix(replies, m, n);
    JoinPrefix(Texts(replies, n), m, SEPARATOR);
  }

  /** Chunks after the first `PREVIEW_UNITS` leave the preview alone. */
  lemma {:induction false} PreviewStable(replies: seq<Reply>, n: nat)
    requires PREVIEW_UNITS <= n <= |replies|
    ensures Preview(replies, n) == Preview(replies, PREVIEW_UNITS)
  {
    if n > PREVIEW_UNITS {
      PreviewStable(replies, n - 1);
      var before := Preview(replies, n - 1);
      assert Preview(replies, n) == before + "";
      assert before + "" == before;
    }
  }

  /** What `start_translation` answers. */
  datatype StartResult = Started | Rejected(code: int, detail: string)

  /** The translations directory; `files` records what has been written. */
  class OutputDir {
    ghost var files: map<string, string>

    /** `os.makedirs(..., exist_ok=True)` keeps what the directory holds. */
    constructor (initial: map<string, string>)
      ensures files == initial
    {
      files := initial;
    }
  }

  /** The process-wide job status that pollers read. */
  class TranslationStatus {
    var progress: int
    var currentStep: string
    var isRunning: bool
    var shouldStop: bool
    var resultFile: string
    var preview: string

    /** Progress is a percentage, and any result file is a job's output name. */
    ghost predicate Valid()
      reads this
    {
      0 <= progress <= 100 && (resultFile == "" || OUTPUT_PREFIX <= resultFile)
    }

    constructor ()
      ensures Valid()
      ensures progress == 0 && currentStep == "" && !isRunning && !shouldStop
      ensures resultFile == "" && preview == ""
    {
      progress := 0;
      currentStep := "";
      isRunning := false;
      shouldStop := false;
      resultFile := "";
      preview := "";
    }

    /** `stop_translation`: ask the running job to stop at its next checkpoint. */
    method Stop()
      requires Valid()
      modifies this
      ensures Valid()
      ensures shouldStop && currentStep == STOPPING
      ensures progress == old(progress) && isRunning == old(isRunning)
      ensures resultFile == old(resultFile) && preview == old(preview)
    {
      shouldStop := true;
      currentStep := STOPPING;
    }

    /** `start_translation` up to the hand-off to the background runner:
        refuses without an API key, and otherwise clears the stop flag. */
    method Start(config: Config) returns (r: StartResult)
      requires Valid()
      modifies this
      ensures Valid()
      ensures config.apiKey == "" ==> r == Rejected(BAD_REQUEST, MISSING_KEY) && unchanged(this)
      ensures config.apiKey != "" ==> r == Started && !shouldStop
      ensures config.apiKey != "" ==>
                progress == old(progress) && currentStep == old(currentStep) &&
                isRunning == old(isRunning) && resultFile == old(resultFile) &&
                preview == old(preview)
    {
      if config.apiKey == "" {
        return Rejected(BAD_REQUEST, MISSING_KEY);
      }
      shouldStop := false;
      r := Started;
    }

    /** `run_translation_task` over `chunks`. `replies[i]` is the service's
        answer to chunk `i`'s request. `stops[i]` says whether a stop request
        is served while chunk `i`'s call is awaited (`i < |chunks|`) or while
        the output is written (`i == |chunks|`); a stop served before the run
        reaches its first checkpoint shows in the initial `shouldStop`.
        `requests` are the requests sent and `polled` what a poller reads at
        each suspension point. */
    method Run(chunks: seq<string>, filename: string, config: Config,
               replies: seq<Reply>, stops: seq<bool>, dir: OutputDir)
      returns (ghost requests: seq<Params>, ghost polled: seq<Snapshot>)
      requires Valid()
      requires |replies| == |chunks| && |stops| == |chunks| + 1
      modifies this, dir
      ensures Valid() && !isRunning
      ensures var k := Processed(old(shouldStop), stops, |chunks|);
              requests == Sent(chunks, config, k) &&
              preview == Preview(replies, k) &&
              polled == PollTrace(replies, k, k == |chunks|, old(resultFile))
      ensures var k := Processed(old(shouldStop), stops, |chunks|);
              k < |chunks| ==>
                currentStep == STOPPED && shouldStop &&
                progress == (if k == 0 then 0 else Progress(k - 1, |chunks|)) &&
                resultFile == old(resultFile) && dir.files == old(dir.files)
      ensures var k := Processed(old(shouldStop), stops, |chunks|);
              k == |chunks| ==>
                currentStep == COMPLETE && progress == 100 &&
                resultFile == OutputName(filename) &&
                dir.files == old(dir.files)[OutputName(filename) := Output(Texts(replies, |replies|))] &&
                shouldStop == (old(shouldStop) || true in stops)
    {
      isRunning := true;
      progress := 0;
      currentStep := STARTING;
      preview := "";

      ghost var k := Processed(shouldStop, stops, |chunks|);
      var translated, stopped;
      translated, stopped, requests, polled := TranslateChunks(chunks, config, replies, stops);
      if stopped {
        return;
      }
      StopsOfCompletedRun(old(shouldStop), stops, |chunks|);
      ghost var last := Finish(translated, filename, stops[|chunks|], dir);
      assert last == WriteSnapshot(replies, old(resultFile));
      polled := polled + [last];
    }

    /** The loop of `run_translation_task`: at each chunk's checkpoint, stop
        if asked to, and otherwise translate the chunk. `stopped` says whether
        the loop left through a checkpoint; `translated` holds the units of
        the chunks it processed. */
    method TranslateChunks(chunks: seq<string>, config: Config, replies: seq<Reply>, stops: seq<bool>)
      returns (translated: seq<string>, stopped: bool,
               ghost requests: seq<Params>, ghost polled: seq<Snapshot>)
      requires |replies| == |chunks| && |stops| > |chunks|
      requires Valid() && isRunning && progress == 0 && preview == ""
      modifies this
      ensures var k := Processed(old(shouldStop), stops, |chunks|);
              stopped == (k < |chunks|) &&
              translated == Texts(replies, k) && preview == Preview(replies, k) &&
              requests == Sent(chunks, config, k) && polled == ChunkTrace(replies, k, old(resultFile)) &&
              progress == (if k == 0 then 0 else Progress(k - 1, |chunks|))
      ensures stopped ==> currentStep == STOPPED && shouldStop && !isRunning
      ensures !stopped ==> isRunning && shouldStop == StopSeen(old(shouldStop), stops, |chunks|)
      ensures !stopped ==> currentStep == StepAfter(old(currentStep), stops, |chunks|, |chunks|)
      ensures Valid() && progress < 100 && resultFile == old(resultFile)
    {
      translated, stopped := [], false;
      ghost var stop0, file0, step0 := shouldStop, resultFile, currentStep;
      var total := |chunks|;
      requests, polled := [], [];
      for i := 0 to total
        invariant Valid() && isRunning && progress < 100
        invariant progress == (if i == 0 then 0 else Progress(i - 1, total))
        invariant shouldStop == StopSeen(stop0, stops, i)
        invariant i <= Processed(stop0, stops, total)
        invariant |translated| == i && translated == Texts(replies, i)
        invariant preview == Preview(replies, i)
        invariant requests == Sent(chunks, config, i)
        invariant polled == ChunkTrace(replies, i, file0)
        invariant resultFile == file0
        invariant currentStep == StepAfter(step0, stops, i, total)
      {
        if shouldStop {
          assert i == Processed(stop0, stops, total);
          currentStep := STOPPED;
          isRunning := false;
          stopped := true;
          return;
        }
        var text, request, snapshot := TranslateNext(i, total, chunks[i], config, replies[i], stops[i]);
        assert snapshot == ChunkSnapshot(replies, i, file0);
        assert currentStep == StepAfter(step0, stops, i + 1, total);
        polled := polled + [snapshot];
        assert polled == ChunkTrace(replies, i + 1, file0);
        requests := requests + [request];
        translated := translated + [text];
        assert translated == Texts(replies, i + 1);
        assert requests == Sent(chunks, config, i + 1);
        assert preview == Preview(replies, i + 1);
      }
    }

    /** One pass of the runner's loop after its checkpoint: announce chunk
        `i` of `total`, translate it, and extend the preview. `stopDuringCall`
        says whether a stop request is served while the generation call is
        awaited; `request` is the request sent and `polled` what a poller
        reads meanwhile. */
    method TranslateNext(i: nat, total: nat, chunk: string, config: Config,
                         reply: Reply, stopDuringCall: bool)
      returns (text: string, ghost request: Params, ghost polled: Snapshot)
      requires i < total && Valid()
      modifies this
      ensures Valid()
      ensures text == ReplyText(reply) && request == BuildParams(chunk, config)
      ensures polled == Snapshot(Progress(i, total), ChunkStep(i, total), old(isRunning),
                                 old(preview), old(resultFile))
      ensures currentStep == (if stopDuringCall then STOPPING else ChunkStep(i, total))
      ensures progress == Progress(i, total) && 0 <= progress < 100
      ensures preview == old(preview) + PreviewPart(i, text)
      ensures shouldStop == (old(shouldStop) || stopDuringCall)
      ensures isRunning == old(isRunning) && resultFile == old(resultFile)
    {
      currentStep := ChunkStep(i, total);
      progress := i * 100 / total;
      ProgressBelowFull(i, total);
      polled := Snapshot(progress, currentStep, isRunning, preview, resultFile);

      var call := TranslateChunk(chunk, config, reply);
      request := call.request;
      if stopDuringCall {
        Stop();
      }
      text := call.text;
      if i < PREVIEW_UNITS {
        preview := preview + (text + SEPARATOR);
      }
    }

    /** The tail of `run_translation_task` once every chunk is translated:
        write the joined units and record the result. `stopDuringWrite` says
        whether a stop request is served while the output is written;
        `polled` is what a poller reads meanwhile. */
    method Finish(units: seq<string>, filename: string, stopDuringWrite: bool, dir: OutputDir)
      returns (ghost polled: Snapshot)
      requires Valid()
      modifies this, dir
      ensures Valid() && !isRunning
      ensures polled == Snapshot(100, FINALIZING, old(isRunning), old(preview), old(resultFile))
      ensures currentStep == COMPLETE && progress == 100 && preview == old(preview)
      ensures resultFile == OutputName(filename)
      ensures dir.files == old(dir.files)[OutputName(filename) := Output(units)]
      ensures shouldStop == (old(shouldStop) || stopDuringWrite)
    {
      progress := 100;
      currentStep := FINALIZING;
      polled := Snapshot(progress, currentStep, isRunning, preview, resultFile);

      var finalText := Join(units, SEPARATOR);
      var outputName := OutputName(filename);
      dir.files := dir.files[outputName := finalText];
      if stopDuringWrite {
        Stop();
      }

      resultFile := outputName;
      isRunning := false;
      currentStep := COMPLETE;
    }
  }
}
