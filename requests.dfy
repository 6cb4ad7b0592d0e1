/** Shaping of the generation request for one chunk, and what a chunk becomes
    once the generation call has answered (`translate_chunk`). */
module Requests {
  import opened Text

  /** The settings a job reads: API key, model name and output-token budget. */
  datatype Config = Config(apiKey: string, model: string, maxTokens: int)

  datatype Message = Message(role: string, content: string)

  /** The values that appear in a request's parameter dictionary. */
  datatype Value = Str(str: string) | Int(num: int) | Messages(messages: seq<Message>)

  /** The keyword arguments of the chat-completion call, keyed by name. */
  type Params = map<string, Value>

  /** What the text-generation service answers to one call: the generated
      text, or the description of the exception it raised. */
  datatype Reply = Ok(text: string) | Err(msg: string)

  /** The request `translate_chunk` sends and the text it hands back. */
  datatype ChunkCall = ChunkCall(request: Params, text: string)

  const PROMPT_PREFIX: string :=
    "You are a professional translator specializing in Markdown documents. \n" +
    "Translate the following English Markdown content into Korean.\n" +
    "Maintain all Markdown formatting (headers, lists, bold, italics, etc.).\n" +
    "DO NOT translate code blocks (content between ```) or inline code (content between `), but translate comments if any.\n" +
    "Ensure the tone is natural and professional.\n" +
    "\n" +
    "Content to translate:\n"

  /** Substrings that mark a model of a reasoning family. */
  const REASONING_MARKERS: seq<string> := ["o1", "o3", "gpt-5"]

  const MODEL_KEY := "model"
  const MESSAGES_KEY := "messages"
  const TEMPERATURE_KEY := "temperature"
  const MAX_TOKENS_KEY := "max_tokens"
  const MAX_COMPLETION_TOKENS_KEY := "max_completion_tokens"

  const ERROR_OPEN := "\n[Translation Error: "
  const ERROR_CLOSE := "]\n"

  /** The instruction text wrapped around a chunk. */
  function Prompt(chunk: string): string {
    PROMPT_PREFIX + chunk + "\n"
  }

  /** Recovers the chunk from a prompt, if the text is one. */
  function ChunkOfPrompt(prompt: string): Option<string> {
    if |prompt| > |PROMPT_PREFIX| && PROMPT_PREFIX <= prompt && prompt[|prompt| - 1] == '\n'
    then Some(prompt[|PROMPT_PREFIX|..|prompt| - 1])
    else None
  }

  /** The name contains one of the reasoning-family markers somewhere. */
  ghost predicate InReasoningFamily(name: string) {
    exists m :: m in REASONING_MARKERS && exists i :: OccursAt(m, name, i)
  }

  /** `any(m in model_name for m in ["o1", "o3", "gpt-5"])` */
  function IsReasoningModel(name: string): bool {
    exists m :: m in REASONING_MARKERS && Contains(name, m)
  }

  /** The parameter dictionary for one chunk. */
  function BuildParams(chunk: string, config: Config): Params {
    var base := map[MODEL_KEY := Str(config.model),
                     MESSAGES_KEY := Messages([Message("user", Prompt(chunk))])];
    if IsReasoningModel(config.model) then
      base[MAX_COMPLETION_TOKENS_KEY := Int(config.maxTokens)][TEMPERATURE_KEY := Int(1)]
    else
      base[MAX_TOKENS_KEY := Int(config.maxTokens)][TEMPERATURE_KEY := Int(0)]
  }

  /** The placeholder that stands in for a chunk whose generation call failed. */
  function ErrorPlaceholder(msg: string): string {
    ERROR_OPEN + msg + ERROR_CLOSE
  }

  /** Recovers the failure description from a placeholder, if the text is one. */
  function ErrorMessage(text: string): Option<string> {
    if |text| >= |ERROR_OPEN| + |ERROR_CLOSE| && ERROR_OPEN <= text &&
       text[|text| - |ERROR_CLOSE|..] == ERROR_CLOSE
    then Some(text[|ERROR_OPEN|..|text| - |ERROR_CLOSE|])
    else None
  }

  /** The text a chunk contributes, given the generation call's answer. */
  function ReplyText(reply: Reply): string {
    match reply
    case Ok(text) => text
    case Err(msg) => ErrorPlaceholder(msg)
  }

  /** One call of `translate_chunk`: the request it sends and the text it
      returns, `reply` being the service's answer to that request. */
  function TranslateChunk(chunk: string, config: Config, reply: Reply): ChunkCall {
    ChunkCall(BuildParams(chunk, config), ReplyText(reply))
  }

  /** Family detection by scanning agrees with the substring definition. */
  lemma IsReasoningModelCorrect(name: string)
    ensures IsReasoningModel(name) <==> InReasoningFamily(name)
  {
    forall m | m in REASONING_MARKERS
      ensures Contains(name, m) <==> exists i :: OccursAt(m, name, i)
    {
      ContainsCorrect(name, m);
    }
  }

  /** A reasoning-family model gets the completion-token limit and
      temperature 1, and no `max_tokens` key. */
  lemma ReasoningRequest(chunk: string, config: Config)
    requires InReasoningFamily(config.model)
    ensures var p := BuildParams(chunk, config);
            MAX_COMPLETION_TOKENS_KEY in p && p[MAX_COMPLETION_TOKENS_KEY] == Int(config.maxTokens) &&
            TEMPERATURE_KEY in p && p[TEMPERATURE_KEY] == Int(1) &&
            MAX_TOKENS_KEY !in p
  {
    IsReasoningModelCorrect(config.model);
  }

  /** Any other model gets `max_tokens` and temperature 0, and no
      completion-token key. */
  lemma StandardRequest(chunk: string, config: Config)
    requires !InReasoningFamily(config.model)
    ensures var p := BuildParams(chunk, config);
            MAX_TOKENS_KEY in p && p[MAX_TOKENS_KEY] == Int(config.maxTokens) &&
            TEMPERATURE_KEY in p && p[TEMPERATURE_KEY] == Int(0) &&
            MAX_COMPLETION_TOKENS_KEY !in p
  {
    IsReasoningModelCorrect(config.model);
  }

  /** Every request carries exactly four keys, exactly one of them a token limit. */
  lemma OneTokenLimit(chunk: string, config: Config)
    ensures var p := BuildParams(chunk, config);
            (MAX_TOKENS_KEY in p) != (MAX_COMPLETION_TOKENS_KEY in p) &&
            |p.Keys| == 4 && MODEL_KEY in p && MESSAGES_KEY in p && TEMPERATURE_KEY in p
  {
    var p := BuildParams(chunk, config);
    var limit := if IsReasoningModel(config.model) then MAX_COMPLETION_TOKENS_KEY else MAX_TOKENS_KEY;
    assert p.Keys == {MODEL_KEY, MESSAGES_KEY, limit, TEMPERATURE_KEY};
  }

  /** The request names the configured model and carries a single user
      message whose chunk is exactly the one being translated. */
  lemma RequestCarriesChunk(chunk: string, config: Config)
    ensures var p := BuildParams(chunk, config);
            MODEL_KEY in p && p[MODEL_KEY] == Str(config.model) &&
            MESSAGES_KEY in p && p[MESSAGES_KEY].Messages? &&
            |p[MESSAGES_KEY].messages| == 1 &&
            p[MESSAGES_KEY].messages[0].role == "user" &&
            ChunkOfPrompt(p[MESSAGES_KEY].messages[0].content) == Some(chunk)
  {
    PromptRoundTrip(chunk);
  }

  /** The chunk can be read back out of its prompt: the prompt is the fixed
      prefix, then the chunk, then one newline. */
  lemma PromptRoundTrip(chunk: string)
    ensures ChunkOfPrompt(Prompt(chunk)) == Some(chunk)
  {
    var p := Prompt(chunk);
    assert p[..|PROMPT_PREFIX|] == PROMPT_PREFIX;
    assert p[|PROMPT_PREFIX|..|p| - 1] == chunk;
  }

  /** The failure description can be read back out of its placeholder. */
  lemma ErrorRoundTrip(msg: string)
    ensures ErrorMessage(ErrorPlaceholder(msg)) == Some(msg)
  {
    var t := ErrorPlaceholder(msg);
    assert t[..|ERROR_OPEN|] == ERROR_OPEN;
    assert t[|t| - |ERROR_CLOSE|..] == ERROR_CLOSE;
    assert t[|ERROR_OPEN|..|t| - |ERROR_CLOSE|] == msg;
  }

  /** A failed call yields the marked placeholder carrying its description;
      a successful one yields the generated text unchanged. */
  lemma TranslateChunkResult(chunk: string, config: Config, reply: Reply)
    ensures var call := TranslateChunk(chunk, config, reply);
            call.request == BuildParams(chunk, config) &&
            (reply.Err? ==> ErrorMessage(call.text) == Some(reply.msg) &&
                            call.text == ERROR_OPEN + reply.msg + ERROR_CLOSE) &&
            (reply.Ok? ==> call.text == reply.text)
  {
    if reply.Err? {
      ErrorRoundTrip(reply.msg);
    }
  }

  /** "o1-preview" is a reasoning-family model. */
  lemma O1PreviewIsReasoning()
    ensures InReasoningFamily("o1-preview")
  {
    assert OccursAt("o1", "o1-preview", 0);
    assert "o1" in REASONING_MARKERS;
  }

  /** "gpt-4o" is a standard model. */
  lemma Gpt4oIsStandard()
    ensures !InReasoningFamily("gpt-4o")
  {
    var name := "gpt-4o";
    var tails := [name, "pt-4o", "t-4o", "-4o", "4o", "o"];
    forall k | 0 <= k < |tails| - 1 ensures tails[k][1..] == tails[k + 1] { }
    forall m | m in REASONING_MARKERS ensures !Contains(name, m) {
      var j := |tails| - 1;
      while j > 0
        invariant 0 <= j < |tails| && !Contains(tails[j], m)
      {
        if |m| <= |tails[j - 1]| {
          var q := if j == 1 && m == "gpt-5" then 4 else 0;
          assert tails[j - 1][..|m|][q] != m[q];
        }
        j := j - 1;
      }
    }
    IsReasoningModelCorrect(name);
  }
}
