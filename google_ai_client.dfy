/**
 * `google_ai_client.py`: the client's key check, the generation settings it
 * sends (as a config dictionary to the Python library, or as flags to the
 * Node script), the JSON prompt, the markdown-fence cleanup of the answer
 * and the fallback parse. The model service, the Node process and the JSON
 * decoder are parameters; numbers travel as their text.
 */
module GoogleAiClient {
  import opened Wrappers
  import opened StrUtil
  import Items
  import Json

  const DefaultModel := "gemini-1.5-flash"
  const KeyMissing := "GOOGLE_GENAI_API_KEY environment variable not found"
  const NodeFailure := "Error generating content with Node.js: "
  const Script := "google-ai-test.js"
  const TemperatureKey := "temperature"
  const MaxOutputTokensKey := "max_output_tokens"
  const JsonInstruction := "\n\nReturn your response as a valid JSON object. Do not include any explanations or markdown formatting."
  const SchemaLead := "\n\nYour response should conform to the following JSON schema: "
  const JsonFence := "```json"
  const Fence := "```"

  /** A JSON decoder: the value, or nothing when the text is not JSON. */
  type Parser = string -> Option<Json.Json>

  datatype Client = Client(apiKey: string, modelName: string)

  /** `GoogleAIClient(api_key, model_name)`: the given key or else the environment's; neither is a ValueError. */
  function NewClient(apiKey: Option<string>, envKey: Option<string>, modelName: string): (r: Result<Client, string>)
    ensures r.Err? <==> !Items.Truthy(apiKey) && !Items.Truthy(envKey)
    ensures r.Err? ==> r.error == KeyMissing
    ensures r.Ok? ==> r.value.modelName == modelName && r.value.apiKey != ""
    ensures r.Ok? ==> r.value.apiKey == if Items.Truthy(apiKey) then apiKey.value else envKey.value
  {
    var key := if Items.Truthy(apiKey) then apiKey else envKey;
    if !Items.Truthy(key) then Err(KeyMissing) else Ok(Client(key.value, modelName))
  }

  // ------------------------------------------------------------- settings

  /** The generation config: a key per setting that is given. */
  function GenerationConfig(temperature: Option<string>, maxTokens: Option<string>, maxKey: string): (r: map<string, string>)
    requires maxKey != TemperatureKey
    ensures TemperatureKey in r <==> temperature.Some?
    ensures maxKey in r <==> maxTokens.Some?
    ensures temperature.Some? ==> r[TemperatureKey] == temperature.value
    ensures maxTokens.Some? ==> r[maxKey] == maxTokens.value
    ensures forall k :: k in r ==> k == TemperatureKey || k == maxKey
  {
    var withTemperature := if temperature.Some? then map[TemperatureKey := temperature.value] else map[];
    if maxTokens.Some? then withTemperature[maxKey := maxTokens.value] else withTemperature
  }

  /** `--name=`: the start of a command-line flag. */
  function FlagPrefix(name: string): string
  {
    "--" + name + "="
  }

  /** `_generate_with_node`'s command: prompt, model and output file, then temperature and max tokens when given. */
  function NodeCommand(prompt: string, modelName: string, outputFile: string, temperature: Option<string>, maxTokens: Option<string>): (cmd: seq<string>)
    ensures |cmd| == 5 + (if temperature.Some? then 1 else 0) + (if maxTokens.Some? then 1 else 0)
    ensures cmd[0] == "node" && cmd[1] == Script
    ensures cmd[2] == FlagPrefix("prompt") + prompt && cmd[3] == FlagPrefix("model") + modelName && cmd[4] == FlagPrefix("output") + outputFile
    ensures temperature.Some? ==> cmd[5] == FlagPrefix("temperature") + temperature.value
    ensures maxTokens.Some? ==> cmd[|cmd| - 1] == FlagPrefix("max_tokens") + maxTokens.value
  {
    var base := ["node", Script, FlagPrefix("prompt") + prompt, FlagPrefix("model") + modelName, FlagPrefix("output") + outputFile];
    var withTemperature := if temperature.Some? then base + [FlagPrefix("temperature") + temperature.value] else base;
    if maxTokens.Some? then withTemperature + [FlagPrefix("max_tokens") + maxTokens.value] else withTemperature
  }

  // ----------------------------------------------------------- generation

  /** What the Node process leaves behind: its exit code, its stderr and the output file's text. */
  datatype NodeRun = NodeRun(returncode: int, stderr: string, output: string)

  /** `_generate_with_node`: the output file, or an error carrying stderr when the script exits non-zero. */
  function GenerateWithNode(client: Client, prompt: string, temperature: Option<string>, maxTokens: Option<string>,
                            outputFile: string, run: seq<string> -> NodeRun): (r: Result<string, string>)
    ensures var done := run(NodeCommand(prompt, client.modelName, outputFile, temperature, maxTokens));
      && (r.Ok? <==> done.returncode == 0)
      && (r.Ok? ==> r.value == done.output)
      && (r.Err? ==> r.error == NodeFailure + done.stderr)
  {
    var done := run(NodeCommand(prompt, client.modelName, outputFile, temperature, maxTokens));
    if done.returncode != 0 then Err(NodeFailure + done.stderr) else Ok(done.output)
  }

  /** `generate_content`: the Python library when it is installed, otherwise the Node script. */
  function GenerateContent(client: Client, available: bool, prompt: string, temperature: Option<string>, maxTokens: Option<string>,
                           outputFile: string, library: (string, map<string, string>) -> string, run: seq<string> -> NodeRun): (r: Result<string, string>)
    ensures available ==> r == Ok(library(prompt, GenerationConfig(temperature, maxTokens, MaxOutputTokensKey)))
    ensures !available ==> r == GenerateWithNode(client, prompt, temperature, maxTokens, outputFile, run)
  {
    if available then Ok(library(prompt, GenerationConfig(temperature, maxTokens, MaxOutputTokensKey)))
    else GenerateWithNode(client, prompt, temperature, maxTokens, outputFile, run)
  }

  /** The module-level `generate_content`: a fresh client for the model, so a missing key fails before any call. */
  function GenerateContentWithModel(envKey: Option<string>, modelName: string, available: bool, prompt: string,
                                    temperature: Option<string>, maxTokens: Option<string>, outputFile: string,
                                    library: (string, map<string, string>) -> string, run: seq<string> -> NodeRun): (r: Result<string, string>)
    ensures !Items.Truthy(envKey) ==> r == Err(KeyMissing)
    ensures Items.Truthy(envKey) ==>
      r == GenerateContent(Client(envKey.value, modelName), available, prompt, temperature, maxTokens, outputFile, library, run)
  {
    match NewClient(None, envKey, modelName)
    case Err(e) => Err(e)
    case Ok(client) => GenerateContent(client, available, prompt, temperature, maxTokens, outputFile, library, run)
  }

  // ---------------------------------------------------------- JSON prompt

  /** The prompt, the JSON instruction, and the schema sentence when a schema is given. */
  function JsonPromptWith(prompt: string, schema: Option<string>, instruction: string, lead: string): (r: string)
    ensures StartsWith(r, prompt) && OccursAt(r, instruction, |prompt|)
    ensures schema.None? ==> |r| == |prompt| + |instruction|
    ensures schema.Some? ==> |r| == |prompt| + |instruction| + |lead| + |schema.value| && EndsWith(r, lead + schema.value)
  {
    var base := prompt + instruction;
    assert base[..|prompt|] == prompt && base[|prompt|..|prompt| + |instruction|] == instruction;
    if schema.Some? then
      var r := base + lead + schema.value;
      assert r[..|base|] == base;
      assert r[|r| - |lead + schema.value|..] == lead + schema.value;
      r
    else base
  }

  /** `json_prompt`; `schema` is `json.dumps(schema)` for a truthy schema. */
  function JsonPrompt(prompt: string, schema: Option<string>): string
  {
    JsonPromptWith(prompt, schema, JsonInstruction, SchemaLead)
  }

  // ------------------------------------------------------- fence cleanup

  /** `s.split(p, 1)[0]`: the text before the first `p`. */
  function Head(s: string, p: string): (r: string)
    requires |p| > 0
    ensures !Contains(r, p) && StartsWith(s, r)
  {
    BeforeFirst(s, p);
    if Contains(s, p) then s[..Find(s, p)] else s
  }

  /** `s.split(p, 1)[1]`: the text after the first `p`. */
  function Tail(s: string, p: string): (r: string)
    requires Contains(s, p)
    ensures EndsWith(s, r) && |r| == |s| - Find(s, p) - |p|
  {
    s[Find(s, p) + |p|..]
  }

  /**
   * The cleanup in `generate_json`: the text between "```json" and the next
   * "```"; else between the first two "```"; else the text with one leading
   * "```json" or "```" and one trailing "```" replaced.
   */
  function CleanResponse(text: string): (r: string)
    ensures Contains(text, Fence) && Contains(Tail(text, Fence), Fence) ==> !Contains(r, Fence)
  {
    if Contains(text, JsonFence) && Contains(Tail(text, JsonFence), Fence) then Head(Tail(text, JsonFence), Fence)
    else if Contains(text, Fence) && Contains(Tail(text, Fence), Fence) then Head(Tail(text, Fence), Fence)
    else
      var t := if StartsWith(text, JsonFence) then ReplaceFirst(text, JsonFence, "")
               else if StartsWith(text, Fence) then ReplaceFirst(text, Fence, "")
               else text;
      if EndsWith(t, Fence) then ReplaceFirst(t, Fence, "") else t
  }

  lemma JsonFenceUnbordered()
    ensures Unbordered(JsonFence)
  {
    forall d | 0 < d < |JsonFence| ensures JsonFence[d..] != JsonFence[..|JsonFence| - d] {
      if d < 4 {
        assert JsonFence[d..][3 - d] != JsonFence[..|JsonFence| - d][3 - d];
      } else {
        assert JsonFence[d..][0] != JsonFence[..|JsonFence| - d][0];
      }
    }
  }

  /** A fence right after a text that has none and does not end in a backtick is the first fence. */
  lemma FirstFence(a: string, b: string)
    requires !Contains(a, Fence) && (a == [] || a[|a| - 1] != '`')
    ensures Find(a + Fence + b, Fence) == |a|
  {
    var s := a + Fence + b;
    assert s[|a|..|a| + 3] == Fence;
    assert OccursAt(s, Fence, |a|);
    forall k | 0 <= k < |a| ensures !OccursAt(s, Fence, k) {
      if k + 3 <= |a| {
        assert s[k..k + 3] == a[k..k + 3];
        assert !OccursAt(a, Fence, k);
      } else {
        assert s[k..k + 3][|a| - 1 - k] == a[|a| - 1];
      }
    }
  }

  /** A fenced JSON block is cut out of the text around it. */
  lemma FencedJsonBlock(a: string, body: string, c: string)
    requires !Contains(a, JsonFence)
    requires !Contains(body, Fence) && (body == [] || body[|body| - 1] != '`')
    ensures CleanResponse(a + JsonFence + body + Fence + c) == body
  {
    var rest := body + Fence + c;
    var text := a + JsonFence + body + Fence + c;
    assert text == a + JsonFence + rest;
    JsonFenceUnbordered();
    FirstOccurrenceOf(a, JsonFence, rest);
    assert Tail(text, JsonFence) == rest;
    FirstFence(body, c);
    assert rest[..|body|] == body;
  }

  /** A text without backticks, the usual bare JSON answer, is left as it is. */
  lemma PlainTextKept(text: string)
    requires '`' !in text
    ensures CleanResponse(text) == text
  {
    forall k | 0 <= k ensures !OccursAt(text, Fence, k) && !OccursAt(text, JsonFence, k) {
      if k + 3 <= |text| {
        assert text[k..k + 3][0] == text[k];
      }
      if k + 7 <= |text| {
        assert text[k..k + 7][0] == text[k];
      }
    }
    if |text| >= 3 {
      assert !OccursAt(text, Fence, |text| - 3);
      assert text[|text| - 3..] == text[|text| - 3..|text|];
    }
    if |text| >= 7 {
      assert !OccursAt(text, JsonFence, 0);
    }
    if |text| >= 3 {
      assert !OccursAt(text, Fence, 0);
    }
  }

  /**
   * With one fence, at the end, the code replaces the FIRST "```", not the
   * last; they coincide, since two occurrences that overlap lie in one run of
   * backticks. So the closing fence is dropped.
   */
  lemma ClosingFenceDropped(text: string)
    requires EndsWith(text, Fence) && !StartsWith(text, Fence)
    requires Contains(text, Fence) && !Contains(Tail(text, Fence), Fence)
    ensures CleanResponse(text) == text[..|text| - 3]
  {
    var i := Find(text, Fence);
    var e := |text| - 3;
    var tl := Tail(text, Fence);
    assert OccursAt(text, Fence, e);
    assert i <= e;
    // the closing fence overlaps the first one
    assert !OccursAt(tl, Fence, e - i - 3);
    assert e < i + 3;
    forall m | i <= m < |text| ensures text[m] == '`' {
      if m < i + 3 {
        assert text[m] == text[i..i + 3][m - i];
      } else {
        assert text[m] == text[e..e + 3][m - e];
      }
    }
    // so there is no "```json": it would need a fence before i
    forall j | 0 <= j ensures !OccursAt(text, JsonFence, j) {
      if j + 7 <= |text| {
        assert !OccursAt(text, Fence, j);
        assert text[j..j + 7][..3] == text[j..j + 3];
      }
    }
    assert !StartsWith(text, JsonFence) by {
      assert !OccursAt(text, JsonFence, 0);
    }
    var r := text[..i] + text[i + 3..];
    assert ReplaceFirst(text, Fence, "") == r;
    assert r == text[..e];
  }

  // -------------------------------------------------------- fallback parse

  /** `t.split(close, 1)[0] + close`. */
  function UpToFirst(t: string, close: char): string
  {
    Head(t, [close]) + [close]
  }

  /** When `close` occurs, the candidate is the text through its first `close`, a prefix with no other `close`. */
  lemma UpToFirstPrefix(t: string, close: char)
    requires close in t
    ensures var r := UpToFirst(t, close);
      StartsWith(t, r) && r[|r| - 1] == close && forall k :: 0 <= k < |r| - 1 ==> r[k] != close
  {
    var k :| 0 <= k < |t| && t[k] == close;
    assert t[k..k + 1] == [close];
    assert OccursAt(t, [close], k);
    var i := Find(t, [close]);
    assert t[i..i + 1] == [close];
    forall m | 0 <= m < i ensures t[m] != close {
      assert !OccursAt(t, [close], m);
      assert t[m..m + 1] == [t[m]];
    }
    assert UpToFirst(t, close) == t[..i + 1];
  }

  /**
   * The parse in `generate_json`: the stripped text; failing that, a text
   * opening with '[' (or '{') through its first ']' (or '}'); failing that,
   * an error carrying the cleaned response.
   */
  function ParseResponse(text: string, parse: Parser): (r: Result<Json.Json, string>)
    ensures parse(Strip(text)).Some? ==> r == Ok(parse(Strip(text)).value)
    ensures r.Ok? ==> Some(r.value) in {parse(Strip(text)), parse(UpToFirst(Strip(text), ']')), parse(UpToFirst(Strip(text), '}'))}
    ensures r.Err? ==> r.error == text
    ensures parse(Strip(text)).None? && !StartsWithChar(Strip(text), '[') && !StartsWithChar(Strip(text), '{') ==> r.Err?
  {
    var t := Strip(text);
    match parse(t)
    case Some(v) => Ok(v)
    case None =>
      if StartsWithChar(t, '[') && ']' in text then
        (match parse(UpToFirst(t, ']')) case Some(v) => Ok(v) case None => Err(text))
      else if StartsWithChar(t, '{') && '}' in text then
        (match parse(UpToFirst(t, '}')) case Some(v) => Ok(v) case None => Err(text))
      else Err(text)
  }

  /** `generate_json`: the JSON prompt at the given temperature and no token limit, then cleanup and parse. */
  function GenerateJson(client: Client, available: bool, prompt: string, schema: Option<string>, temperature: string,
                        outputFile: string, library: (string, map<string, string>) -> string, run: seq<string> -> NodeRun,
                        parse: Parser): (r: Result<Json.Json, string>)
    ensures var answer := GenerateContent(client, available, JsonPrompt(prompt, schema), Some(temperature), None, outputFile, library, run);
      && (answer.Err? ==> r == Err(answer.error))
      && (answer.Ok? ==> r == ParseResponse(CleanResponse(answer.value), parse))
  {
    match GenerateContent(client, available, JsonPrompt(prompt, schema), Some(temperature), None, outputFile, library, run)
    case Err(e) => Err(e)
    case Ok(answer) => ParseResponse(CleanResponse(answer), parse)
  }

  /** The module-level `generate_json`: a fresh client for the model, then the client's `generate_json`. */
  function GenerateJsonWithModel(envKey: Option<string>, modelName: string, available: bool, prompt: string,
                                 schema: Option<string>, temperature: string, outputFile: string,
                                 library: (string, map<string, string>) -> string, run: seq<string> -> NodeRun,
                                 parse: Parser): (r: Result<Json.Json, string>)
    ensures !Items.Truthy(envKey) ==> r == Err(KeyMissing)
    ensures Items.Truthy(envKey) ==>
      r == GenerateJson(Client(envKey.value, modelName), available, prompt, schema, temperature, outputFile, library, run, parse)
  {
    match NewClient(None, envKey, modelName)
    case Err(e) => Err(e)
    case Ok(client) => GenerateJson(client, available, prompt, schema, temperature, outputFile, library, run, parse)
  }
}
