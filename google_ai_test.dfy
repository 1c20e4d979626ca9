/**
 * `google-ai-test.js`: the Node script the Python client falls back to. Its
 * flag parsing and defaults, the generation config, the fence stripping of
 * JSON answers, the console echo and the exit code. The model service, the
 * JSON decoder and encoder, and the file write are parameters; numbers are
 * kept as the text `parseFloat`/`parseInt` would read.
 */
module GoogleAiTest {
  import opened Wrappers
  import opened StrUtil
  import Items
  import Json
  import GAC = GoogleAiClient

  const DefaultPrompt := "Write a short introduction to generative AI."
  const DefaultOutput := "google_ai_output.md"
  const DefaultTemperature := "0.7"
  const MaxOutputTokensKey := "maxOutputTokens"
  const JsonFlag := "--json"
  const Truncation := "\n... [content truncated] ...\n"

  // ---------------------------------------------------------------- flags

  /** `args.find(arg => arg.startsWith(prefix))`: the first argument with the prefix. */
  function FindArg(args: seq<string>, prefix: string): (r: Option<string>)
    ensures r.Some? ==> r.value in args && StartsWith(r.value, prefix)
    ensures r.None? <==> forall k :: 0 <= k < |args| ==> !StartsWith(args[k], prefix)
  {
    if args == [] then None
    else if StartsWith(args[0], prefix) then Some(args[0])
    else FindArg(args[1..], prefix)
  }

  /** A flag argument holds an '='. */
  lemma FlagHasEquals(arg: string, name: string)
    requires StartsWith(arg, GAC.FlagPrefix(name))
    ensures Contains(arg, "=")
  {
    assert arg[|name| + 2..|name| + 3] == GAC.FlagPrefix(name)[|name| + 2..|name| + 3];
    assert OccursAt(arg, "=", |name| + 2);
  }

  /** `arg.split('=')[1]`: the text between the first and the second '='. */
  function FlagValue(arg: string): string
    requires Contains(arg, "=")
  {
    SplitParts(arg, "=");
    Split(arg, "=")[1]
  }

  /** The value of the flag `name`, when some argument carries it. */
  function Flag(args: seq<string>, name: string): (r: Option<string>)
    ensures r.Some? <==> FindArg(args, GAC.FlagPrefix(name)).Some?
  {
    match FindArg(args, GAC.FlagPrefix(name))
    case None => None
    case Some(arg) => FlagHasEquals(arg, name); Some(FlagValue(arg))
  }

  /**
   * The settings `main` reads from its arguments. The temperature is the text
   * given to `parseFloat`; the token limit is the text given to `parseInt`, or
   * none for `null`.
   */
  datatype Args = Args(prompt: string, model: string, output: string, temperature: string, maxTokens: Option<string>, asJson: bool)

  function ParseArgs(args: seq<string>): (r: Args)
    ensures r.asJson <==> exists k :: 0 <= k < |args| && args[k] == JsonFlag
    ensures (forall k :: 0 <= k < |args| ==> !StartsWith(args[k], GAC.FlagPrefix("prompt"))) ==> r.prompt == DefaultPrompt
    ensures (forall k :: 0 <= k < |args| ==> !StartsWith(args[k], GAC.FlagPrefix("model"))) ==> r.model == GAC.DefaultModel
    ensures (forall k :: 0 <= k < |args| ==> !StartsWith(args[k], GAC.FlagPrefix("output"))) ==> r.output == DefaultOutput
    ensures (forall k :: 0 <= k < |args| ==> !StartsWith(args[k], GAC.FlagPrefix("temperature"))) ==> r.temperature == DefaultTemperature
    ensures r.maxTokens.None? <==> forall k :: 0 <= k < |args| ==> !StartsWith(args[k], GAC.FlagPrefix("max_tokens"))
  {
    Args(Flag(args, "prompt").GetOr(DefaultPrompt),
         Flag(args, "model").GetOr(GAC.DefaultModel),
         Flag(args, "output").GetOr(DefaultOutput),
         Flag(args, "temperature").GetOr(DefaultTemperature),
         Flag(args, "max_tokens"),
         JsonFlag in args)
  }

  /**
   * A flag's value ends at the next '=': `--name=v` gives back `v` exactly
   * when `v` has no '=', and otherwise only the text before it.
   */
  lemma FlagValueOf(name: string, v: string)
    requires '=' !in name
    ensures Contains(GAC.FlagPrefix(name) + v, "=")
    ensures FlagValue(GAC.FlagPrefix(name) + v) == GAC.Head(v, "=")
    ensures FlagValue(GAC.FlagPrefix(name) + v) == v <==> !Contains(v, "=")
  {
    var lead := "--" + name;
    var arg := GAC.FlagPrefix(name) + v;
    assert arg == lead + "=" + v;
    assert '=' !in lead;
    AbsentChar(lead, '=');
    FirstOccurrenceOf(lead, "=", v);
    assert arg[|lead| + 1..] == v;
    SplitParts(arg, "=");
    if Contains(v, "=") {
      assert |GAC.Head(v, "=")| < |v|;
    }
  }

  /** Two flags whose names differ at some position do not match each other's arguments. */
  lemma OtherFlag(a: string, b: string, v: string, k: nat)
    requires k < |a| && k < |b| && a[k] != b[k]
    ensures !StartsWith(GAC.FlagPrefix(a) + v, GAC.FlagPrefix(b))
  {
    var arg := GAC.FlagPrefix(a) + v;
    if |GAC.FlagPrefix(b)| <= |arg| {
      assert arg[..|GAC.FlagPrefix(b)|][k + 2] == a[k];
    }
  }

  /** No flag argument is the bare "--json". */
  lemma NotJsonFlag(name: string, v: string)
    requires name != [] && name[0] != 'j'
    ensures GAC.FlagPrefix(name) + v != JsonFlag
  {
    assert (GAC.FlagPrefix(name) + v)[2] == name[0];
  }

  /** The argument at `k` is the first with the prefix. */
  lemma {:induction false} FirstWithPrefix(args: seq<string>, prefix: string, k: nat)
    requires k < |args| && StartsWith(args[k], prefix)
    requires forall j :: 0 <= j < k ==> !StartsWith(args[j], prefix)
    ensures FindArg(args, prefix) == Some(args[k])
  {
    if k > 0 {
      assert forall j :: 0 <= j < k - 1 ==> args[1..][j] == args[j + 1];
      FirstWithPrefix(args[1..], prefix, k - 1);
    }
  }

  /** The flag `name` is read from the first argument that carries it. */
  lemma FlagAt(args: seq<string>, name: string, v: string, k: nat)
    requires '=' !in name && !Contains(v, "=")
    requires k < |args| && args[k] == GAC.FlagPrefix(name) + v
    requires forall j :: 0 <= j < k ==> !StartsWith(args[j], GAC.FlagPrefix(name))
    ensures Flag(args, name) == Some(v)
  {
    assert StartsWith(args[k], GAC.FlagPrefix(name));
    FirstWithPrefix(args, GAC.FlagPrefix(name), k);
    FlagValueOf(name, v);
  }

  /** The arguments `node google-ai-test.js` receives from the Python client. */
  function CommandArgs(prompt: string, model: string, output: string, temperature: Option<string>, maxTokens: Option<string>): seq<string>
  {
    GAC.NodeCommand(prompt, model, output, temperature, maxTokens)[2..]
  }

  /** No value of the command holds an '='. */
  predicate PlainValues(prompt: string, model: string, output: string, temperature: Option<string>, maxTokens: Option<string>)
  {
    && !Contains(prompt, "=") && !Contains(model, "=") && !Contains(output, "=")
    && (temperature.Some? ==> !Contains(temperature.value, "="))
    && (maxTokens.Some? ==> !Contains(maxTokens.value, "="))
  }

  /** The leading flags: prompt, model and output, at positions 0, 1 and 2. */
  lemma LeadingFlags(prompt: string, model: string, output: string, temperature: Option<string>, maxTokens: Option<string>)
    requires PlainValues(prompt, model, output, temperature, maxTokens)
    ensures var args := CommandArgs(prompt, model, output, temperature, maxTokens);
      && Flag(args, "prompt") == Some(prompt) && Flag(args, "model") == Some(model) && Flag(args, "output") == Some(output)
  {
    var args := CommandArgs(prompt, model, output, temperature, maxTokens);
    FlagAt(args, "prompt", prompt, 0);
    OtherFlag("prompt", "model", prompt, 0);
    FlagAt(args, "model", model, 1);
    OtherFlag("prompt", "output", prompt, 0);
    OtherFlag("model", "output", model, 0);
    FlagAt(args, "output", output, 2);
  }

  /** The temperature flag is read when sent; the script's default applies otherwise. */
  lemma TemperatureFlag(prompt: string, model: string, output: string, temperature: Option<string>, maxTokens: Option<string>)
    requires PlainValues(prompt, model, output, temperature, maxTokens)
    ensures Flag(CommandArgs(prompt, model, output, temperature, maxTokens), "temperature") == temperature
  {
    var args := CommandArgs(prompt, model, output, temperature, maxTokens);
    OtherFlag("prompt", "temperature", prompt, 0);
    OtherFlag("model", "temperature", model, 0);
    OtherFlag("output", "temperature", output, 0);
    if maxTokens.Some? {
      OtherFlag("max_tokens", "temperature", maxTokens.value, 0);
    }
    if temperature.Some? {
      FlagAt(args, "temperature", temperature.value, 3);
    } else {
      assert forall j :: 0 <= j < |args| ==> !StartsWith(args[j], GAC.FlagPrefix("temperature"));
    }
  }

  /** The token-limit flag is read when sent, and is missing otherwise. */
  lemma MaxTokensFlag(prompt: string, model: string, output: string, temperature: Option<string>, maxTokens: Option<string>)
    requires PlainValues(prompt, model, output, temperature, maxTokens)
    ensures Flag(CommandArgs(prompt, model, output, temperature, maxTokens), "max_tokens") == maxTokens
  {
    var args := CommandArgs(prompt, model, output, temperature, maxTokens);
    OtherFlag("prompt", "max_tokens", prompt, 0);
    OtherFlag("model", "max_tokens", model, 1);
    OtherFlag("output", "max_tokens", output, 0);
    if temperature.Some? {
      OtherFlag("temperature", "max_tokens", temperature.value, 0);
    }
    if maxTokens.Some? {
      FlagAt(args, "max_tokens", maxTokens.value, |args| - 1);
    } else {
      assert forall j :: 0 <= j < |args| ==> !StartsWith(args[j], GAC.FlagPrefix("max_tokens"));
    }
  }

  /** The command never holds the bare "--json". */
  lemma NoJsonFlag(prompt: string, model: string, output: string, temperature: Option<string>, maxTokens: Option<string>)
    ensures JsonFlag !in CommandArgs(prompt, model, output, temperature, maxTokens)
  {
    NotJsonFlag("prompt", prompt);
    NotJsonFlag("model", model);
    NotJsonFlag("output", output);
    if temperature.Some? {
      NotJsonFlag("temperature", temperature.value);
    }
    if maxTokens.Some? {
      NotJsonFlag("max_tokens", maxTokens.value);
    }
  }

  /**
   * The Python client's Node command reaches the script unchanged when no
   * value holds an '=': the prompt, model and output come back, the
   * temperature when one is sent (else the script's 0.7), the token limit
   * when one is sent, and never JSON mode.
   */
  lemma NodeCommandRoundTrip(prompt: string, model: string, output: string, temperature: Option<string>, maxTokens: Option<string>)
    requires PlainValues(prompt, model, output, temperature, maxTokens)
    ensures ParseArgs(CommandArgs(prompt, model, output, temperature, maxTokens))
         == Args(prompt, model, output, temperature.GetOr(DefaultTemperature), maxTokens, false)
  {
    LeadingFlags(prompt, model, output, temperature, maxTokens);
    TemperatureFlag(prompt, model, output, temperature, maxTokens);
    MaxTokensFlag(prompt, model, output, temperature, maxTokens);
    NoJsonFlag(prompt, model, output, temperature, maxTokens);
  }

  /** A prompt holding an '=' reaches the script cut at its first '='. */
  lemma PromptCutAtEquals(prompt: string, model: string, output: string, temperature: Option<string>, maxTokens: Option<string>)
    requires Contains(prompt, "=")
    ensures ParseArgs(CommandArgs(prompt, model, output, temperature, maxTokens)).prompt == GAC.Head(prompt, "=") != prompt
  {
    var args := CommandArgs(prompt, model, output, temperature, maxTokens);
    assert StartsWith(args[0], GAC.FlagPrefix("prompt"));
    FirstWithPrefix(args, GAC.FlagPrefix("prompt"), 0);
    FlagValueOf("prompt", prompt);
  }

  // ----------------------------------------------------------- generation

  /** What `model.generateContent` is asked: the model, the prompt and the generation config. */
  datatype Request = Request(model: string, prompt: string, config: map<string, string>)

  /** `generateContent`: the key check comes first, so a missing key fails before any request. */
  function GenerateContent(envKey: Option<string>, prompt: string, modelName: string, temperature: Option<string>,
                           maxTokens: Option<string>, service: Request -> string): (r: Result<string, string>)
    ensures !Items.Truthy(envKey) ==> r == Err(GAC.KeyMissing)
    ensures Items.Truthy(envKey) ==> r == Ok(service(Request(modelName, prompt, GAC.GenerationConfig(temperature, maxTokens, MaxOutputTokensKey))))
  {
    if !Items.Truthy(envKey) then Err(GAC.KeyMissing)
    else Ok(service(Request(modelName, prompt, GAC.GenerationConfig(temperature, maxTokens, MaxOutputTokensKey))))
  }

  /** `cleanedResponse`: one leading "```json" (else "```") and then one trailing "```" removed. */
  function StripFences(text: string): (r: string)
    ensures |r| <= |text|
    ensures !StartsWith(text, GAC.Fence) && !EndsWith(text, GAC.Fence) ==> r == text
  {
    var t := if StartsWith(text, GAC.JsonFence) then ReplaceFirst(text, GAC.JsonFence, "")
             else if StartsWith(text, GAC.Fence) then ReplaceFirst(text, GAC.Fence, "")
             else text;
    if EndsWith(t, GAC.Fence) then t[..|t| - 3] else t
  }

  /** A leading pattern is the first occurrence, so replacing the first one drops the prefix. */
  lemma ReplaceLeading(text: string, p: string)
    requires |p| > 0 && StartsWith(text, p)
    ensures ReplaceFirst(text, p, "") == text[|p|..]
  {
    assert OccursAt(text, p, 0);
  }

  /** A block wrapped in "```json" ... "```" comes back whole, whatever it holds. */
  lemma JsonBlockUnwrapped(body: string)
    ensures StripFences(GAC.JsonFence + body + GAC.Fence) == body
  {
    var text := GAC.JsonFence + body + GAC.Fence;
    assert text[..7] == GAC.JsonFence;
    ReplaceLeading(text, GAC.JsonFence);
    assert text[7..] == body + GAC.Fence;
  }

  /** A block wrapped in bare fences comes back whole when it does not itself start with "json". */
  lemma BareBlockUnwrapped(body: string)
    requires !StartsWith(body, "json")
    ensures StripFences(GAC.Fence + body + GAC.Fence) == body
  {
    var text := GAC.Fence + body + GAC.Fence;
    assert !StartsWith(text, GAC.JsonFence) by {
      assert GAC.JsonFence[3..] == "json";
      if |text| >= 7 {
        if |body| >= 4 {
          assert text[..7][3..] == body[..4];
        } else {
          assert text[..7][3 + |body|] == '`';
        }
      }
    }
    assert text[..3] == GAC.Fence;
    ReplaceLeading(text, GAC.Fence);
    assert text[3..] == body + GAC.Fence;
  }

  /** On a clean fenced block the Node script and the Python client extract the same text. */
  lemma CleanersAgree(body: string)
    requires !Contains(body, GAC.Fence) && (body == [] || body[|body| - 1] != '`')
    ensures StripFences(GAC.JsonFence + body + GAC.Fence) == GAC.CleanResponse(GAC.JsonFence + body + GAC.Fence)
  {
    var text := GAC.JsonFence + body + GAC.Fence;
    assert StripFences(text) == body by {
      JsonBlockUnwrapped(body);
    }
    assert GAC.CleanResponse(text) == body by {
      assert !Contains("", GAC.JsonFence);
      GAC.FencedJsonBlock("", body, "");
      EmptyEnds(GAC.JsonFence, body, GAC.Fence);
    }
  }

  lemma EmptyEnds(a: string, b: string, c: string)
    ensures "" + a + b + c + "" == a + b + c
  {
  }

  /**
   * `generateJson`: the prompt with the JSON instruction, the stripped and
   * trimmed answer parsed; a parse failure reports the original answer.
   */
  function GenerateJson(envKey: Option<string>, prompt: string, modelName: string, temperature: string,
                        service: Request -> string, parse: GAC.Parser): (r: Result<Json.Json, string>)
    ensures !Items.Truthy(envKey) ==> r == Err(GAC.KeyMissing)
    ensures Items.Truthy(envKey) ==>
      var answer := service(Request(modelName, GAC.JsonPrompt(prompt, None), GAC.GenerationConfig(Some(temperature), None, MaxOutputTokensKey)));
      && (r.Ok? <==> parse(Strip(StripFences(answer))).Some?)
      && (r.Ok? ==> Some(r.value) == parse(Strip(StripFences(answer))))
      && (r.Err? ==> r.error == answer)
  {
    match GenerateContent(envKey, GAC.JsonPrompt(prompt, None), modelName, Some(temperature), None, service)
    case Err(e) => Err(e)
    case Ok(answer) =>
      match parse(Strip(StripFences(answer)))
      case Some(v) => Ok(v)
      case None => Err(answer)
  }

  // ----------------------------------------------------------------- main

  /** The console echo: the content, or its first and last 500 characters around a marker. */
  function Echo(content: string): (r: string)
    ensures |content| <= 1000 ==> r == content
    ensures |content| > 1000 ==>
      && |r| == 1000 + |Truncation|
      && StartsWith(r, content[..500]) && OccursAt(r, Truncation, 500) && EndsWith(r, content[|content| - 500..])
  {
    if |content| > 1000 then
      var r := content[..500] + Truncation + content[|content| - 500..];
      assert r[..500] == content[..500];
      assert r[500..500 + |Truncation|] == Truncation;
      assert r[|r| - 500..] == content[|content| - 500..];
      r
    else content
  }

  /** What a run leaves: the exit code, the file written (path and text) and the echoed content. */
  datatype Outcome = Outcome(exitCode: int, saved: Option<(string, string)>, echoed: Option<string>)

  /** The content `main` generates: JSON pretty-printed, or the text. */
  function Generated(envKey: Option<string>, a: Args, service: Request -> string, parse: GAC.Parser,
                     stringify: Json.Json -> string): Result<string, string>
  {
    if a.asJson then
      match GenerateJson(envKey, a.prompt, a.model, a.temperature, service, parse)
      case Err(e) => Err(e)
      case Ok(v) => Ok(stringify(v))
    else GenerateContent(envKey, a.prompt, a.model, Some(a.temperature), a.maxTokens, service)
  }

  /**
   * `main`: generate, write the output file, echo; 0 on success and 1 on any
   * error, a failed write included (`writes` says whether the write succeeds).
   */
  function RunMain(envKey: Option<string>, args: seq<string>, service: Request -> string, parse: GAC.Parser,
                   stringify: Json.Json -> string, writes: bool): (r: Outcome)
    ensures r.exitCode == 0 || r.exitCode == 1
    ensures r.exitCode == 0 <==> Generated(envKey, ParseArgs(args), service, parse, stringify).Ok? && writes
    ensures r.exitCode == 0 ==>
      var content := Generated(envKey, ParseArgs(args), service, parse, stringify).value;
      r.saved == Some((ParseArgs(args).output, content)) && r.echoed == Some(Echo(content))
    ensures r.exitCode == 1 ==> r.echoed == None
    ensures !Items.Truthy(envKey) ==> r == Outcome(1, None, None)
  {
    var a := ParseArgs(args);
    match Generated(envKey, a, service, parse, stringify)
    case Err(_) => Outcome(1, None, None)
    case Ok(content) =>
      if !writes then Outcome(1, None, None)
      else Outcome(0, Some((a.output, content)), Some(Echo(content)))
  }
}
