/**
 * The prompt optimizer (prompt_optimizer.py): configuration read from the
 * environment, the client that exists only when the library is installed and a
 * real key is configured, the status table, the guards and post-processing of
 * `optimize_prompt`, and the lazily created module-wide instance. The library
 * import, the network request and dotenv loading become parameters.
 */
module Optimizer {
  import opened Wrappers
  import opened Text

  const DefaultModel: string := "gemini-2.5-flash"
  const PlaceholderKey: string := "your_api_key_here"
  const DefaultIncludeThoughts: string := "false"
  const DefaultSystemInstruction: string :=
    "你是提示词优化专家。将用户的简单提示词优化为更清晰、具体、有效的提示词。"
    + "优化原则：1. 保持原始意图不变 2. 增加必要的细节和描述 3. 使语言更准确和逻辑性强 "
    + "4. 输出简洁明了 5. 适用于各种领域和场景。直接输出优化后的提示词，不要添加额外说明。"

  const MissingLibraryMessage: string := "❌ 需要安装google-genai库"
  const MissingKeyMessage: string := "❌ 请在.env文件中配置GEMINI_API_KEY"
  const ClientFailedMessage: string := "❌ API客户端初始化失败"
  const ReadyMessage: string := "✅ 提示词优化功能已就绪"

  /** Put in front of the stripped prompt in every request. */
  const RequestPrefix: string := "请优化这个提示词："

  /** The process environment after `.env` has been loaded. */
  type Environment = map<string, string>

  /** `os.getenv(name, default)`. */
  function GetEnv(env: Environment, name: string, default: string): string {
    if name in env then env[name] else default
  }

  /** `GEMINI_INCLUDE_THOUGHTS` read as a flag: its lowercase form is `true`. */
  function IncludeThoughtsFlag(value: string): bool {
    Lower(value) == "true"
  }

  lemma LowerUpper(s: string)
    ensures Lower(Upper(s)) == Lower(s)
  {
  }

  lemma LowerLower(s: string)
    ensures Lower(Lower(s)) == Lower(s)
  {
  }

  /**
   * The flag does not depend on ASCII case, is set by `true` in any case,
   * and is off when the variable is missing.
   */
  lemma IncludeThoughtsIgnoresCase(value: string)
    ensures IncludeThoughtsFlag(Upper(value)) == IncludeThoughtsFlag(value)
    ensures IncludeThoughtsFlag(Lower(value)) == IncludeThoughtsFlag(value)
    ensures IncludeThoughtsFlag(value) ==> |value| == 4
    ensures IncludeThoughtsFlag("true") && IncludeThoughtsFlag("True") && IncludeThoughtsFlag("TRUE")
    ensures !IncludeThoughtsFlag(DefaultIncludeThoughts) && !IncludeThoughtsFlag("1") && !IncludeThoughtsFlag("yes")
  {
    LowerUpper(value);
    LowerLower(value);
    assert Lower("True") == "true";
    assert Lower("TRUE") == "true";
    assert Lower("false") != "true" by {
      assert Lower("false")[0] == 'f';
    }
  }

  /** A key the client may be built with: present and not the template placeholder. */
  predicate KeyConfigured(apiKey: string) {
    apiKey != "" && apiKey != PlaceholderKey
  }

  /** `get_status_message`: library, then key, then client. */
  function StatusFor(genaiAvailable: bool, apiKey: string, hasClient: bool): (m: string)
    ensures m in {MissingLibraryMessage, MissingKeyMessage, ClientFailedMessage, ReadyMessage}
    ensures m == ReadyMessage ==> genaiAvailable && KeyConfigured(apiKey) && hasClient
  {
    if !genaiAvailable then MissingLibraryMessage
    else if !KeyConfigured(apiKey) then MissingKeyMessage
    else if !hasClient then ClientFailedMessage
    else ReadyMessage
  }

  /** Each message names exactly the first check that fails, in the fixed order. */
  lemma StatusIdentifiesCheck(genaiAvailable: bool, apiKey: string, hasClient: bool)
    ensures StatusFor(genaiAvailable, apiKey, hasClient) == MissingLibraryMessage <==> !genaiAvailable
    ensures StatusFor(genaiAvailable, apiKey, hasClient) == MissingKeyMessage
      <==> genaiAvailable && !KeyConfigured(apiKey)
    ensures StatusFor(genaiAvailable, apiKey, hasClient) == ClientFailedMessage
      <==> genaiAvailable && KeyConfigured(apiKey) && !hasClient
    ensures StatusFor(genaiAvailable, apiKey, hasClient) == ReadyMessage
      <==> genaiAvailable && KeyConfigured(apiKey) && hasClient
  {
    assert MissingLibraryMessage[2] == '需' && MissingKeyMessage[2] == '请' && ClientFailedMessage[2] == 'A';
    assert ReadyMessage[0] == '✅' && MissingLibraryMessage[0] == '❌';
  }

  /** When a client exists only with the library and a configured key, availability is the ready status. */
  lemma AvailableIffReady(genaiAvailable: bool, apiKey: string, hasClient: bool)
    ensures (hasClient ==> genaiAvailable && KeyConfigured(apiKey)) ==>
      ((genaiAvailable && hasClient) <==> StatusFor(genaiAvailable, apiKey, hasClient) == ReadyMessage)
  {
    StatusIdentifiesCheck(genaiAvailable, apiKey, hasClient);
  }

  /** A `genai.Client`, which remembers the key it was built with. */
  datatype GenaiClient = GenaiClient(apiKey: string)

  /** What `generate_content` is asked for; the float and integer generation settings are not modelled. */
  datatype Request = Request(model: string, contents: string, systemInstruction: string, includeThoughts: bool)

  /** The reply of `generate_content`: `None` for a missing response, `text` possibly missing. */
  datatype Response = Response(text: Option<string>)

  /** Why `optimize_prompt` raises. */
  datatype OptimizeError =
    | EmptyInput                     // ValueError
    | Unavailable(message: string)   // RuntimeError carrying the status message
    | RequestFailed(message: string) // whatever `generate_content` raised, passed on

  /** `generate_content`: the reply, or the message of the exception it raises. */
  type Generator = Request -> Result<Option<Response>, string>

  /** The text handed back for a reply: stripped, and empty when there is no reply or no text. */
  function ResponseText(response: Option<Response>): (t: string)
    ensures Trimmed(t)
    ensures response.None? || response.value.text.None? ==> t == ""
    ensures response.Some? && response.value.text.Some? ==> t == Strip(response.value.text.value)
  {
    if response.Some? && response.value.text.Some? && response.value.text.value != "" then
      Strip(response.value.text.value)
    else
      ""
  }

  class PromptOptimizer {
    const genaiAvailable: bool
    var apiKey: string
    var modelName: string
    var includeThoughts: bool
    var systemInstruction: string
    var client: Option<GenaiClient>

    /** A client exists only for the library and a configured key, and holds that key. */
    ghost predicate Valid()
      reads this
    {
      client.Some? ==> genaiAvailable && KeyConfigured(apiKey) && client.value.apiKey == apiKey
    }

    /**
     * What `__init__` leaves behind for a library flag, an environment and a
     * client build that returns (`clientBuilds`) or raises: the settings read
     * with their defaults, and a client exactly past both guards and the build.
     */
    ghost predicate BuiltFrom(genaiAvailable: bool, env: Environment, clientBuilds: bool)
      reads this
    {
      && this.genaiAvailable == genaiAvailable
      && apiKey == GetEnv(env, "GEMINI_API_KEY", "")
      && modelName == GetEnv(env, "GEMINI_MODEL", DefaultModel)
      && includeThoughts == IncludeThoughtsFlag(GetEnv(env, "GEMINI_INCLUDE_THOUGHTS", DefaultIncludeThoughts))
      && systemInstruction == GetEnv(env, "GEMINI_SYSTEM_INSTRUCTION", DefaultSystemInstruction)
      && (client.Some? <==> genaiAvailable && KeyConfigured(apiKey) && clientBuilds)
    }

    /**
     * `__init__`: read the settings, then try to build the client.
     * `clientBuilds` says whether `genai.Client(...)` would return rather than raise.
     */
    constructor (genaiAvailable: bool, env: Environment, clientBuilds: bool)
      ensures Valid()
      ensures BuiltFrom(genaiAvailable, env, clientBuilds)
    {
      this.genaiAvailable := genaiAvailable;
      apiKey := GetEnv(env, "GEMINI_API_KEY", "");
      modelName := GetEnv(env, "GEMINI_MODEL", DefaultModel);
      includeThoughts := IncludeThoughtsFlag(GetEnv(env, "GEMINI_INCLUDE_THOUGHTS", DefaultIncludeThoughts));
      systemInstruction := GetEnv(env, "GEMINI_SYSTEM_INSTRUCTION", DefaultSystemInstruction);
      client := None;
      new;
      var _ := InitializeClient(clientBuilds);
    }

    /** `_initialize_client`: the client is set only past both guards and only when building it succeeds. */
    method InitializeClient(clientBuilds: bool) returns (ok: bool)
      requires Valid()
      modifies this`client
      ensures Valid()
      ensures ok <==> genaiAvailable && KeyConfigured(apiKey) && clientBuilds
      ensures ok ==> client == Some(GenaiClient(apiKey))
      ensures !ok ==> client == old(client)
    {
      if !genaiAvailable {
        return false;
      }
      if apiKey == "" || apiKey == PlaceholderKey {
        return false;
      }
      if !clientBuilds {
        return false;
      }
      client := Some(GenaiClient(apiKey));
      ok := true;
    }

    /** `is_available`; under the class invariant it holds exactly when the status reads ready. */
    function IsAvailable(): (b: bool)
      reads this
      ensures Valid() ==> (b <==> StatusMessage() == ReadyMessage)
    {
      AvailableIffReady(genaiAvailable, apiKey, client.Some?);
      genaiAvailable && client.Some?
    }

    /** `get_status_message`, on this optimizer's own library flag, key and client. */
    function StatusMessage(): (m: string)
      reads this
      ensures m == ReadyMessage <==> genaiAvailable && KeyConfigured(apiKey) && client.Some?
      ensures m == MissingLibraryMessage <==> !genaiAvailable
    {
      StatusIdentifiesCheck(genaiAvailable, apiKey, client.Some?);
      StatusFor(genaiAvailable, apiKey, client.Some?)
    }

    /** The request `optimize_prompt` sends for a prompt. */
    function RequestFor(originalPrompt: string): Request
      reads this
    {
      Request(modelName, RequestPrefix + Strip(originalPrompt), systemInstruction, includeThoughts)
    }

    /**
     * `optimize_prompt`. Blank input is rejected before availability is looked at;
     * an unavailable optimizer reports its status message; otherwise the reply of
     * `generate` to the request is stripped.
     */
    method OptimizePrompt(originalPrompt: string, generate: Generator)
      returns (r: Result<string, OptimizeError>)
      ensures Strip(originalPrompt) == "" ==> r == Failure(EmptyInput)
      ensures Strip(originalPrompt) != "" && !IsAvailable() ==> r == Failure(Unavailable(StatusMessage()))
      ensures Strip(originalPrompt) != "" && IsAvailable() ==>
        match generate(RequestFor(originalPrompt))
        case Failure(message) => r == Failure(RequestFailed(message))
        case Success(response) => r == Success(ResponseText(response))
      ensures r.Success? ==> Trimmed(r.value)
    {
      if originalPrompt == "" || Strip(originalPrompt) == "" {
        return Failure(EmptyInput);
      }
      if !IsAvailable() {
        return Failure(Unavailable(StatusMessage()));
      }
      var request := Request(modelName, RequestPrefix + Strip(originalPrompt), systemInstruction, includeThoughts);
      var reply := generate(request);
      if reply.Failure? {
        return Failure(RequestFailed(reply.error));
      }
      var response := reply.value;
      if response.Some? && response.value.text.Some? && response.value.text.value != "" {
        r := Success(Strip(response.value.text.value));
      } else {
        r := Success("");
      }
    }
  }

  /** The module-global `_optimizer_instance` and the functions that go through it. */
  class OptimizerRegistry {
    var instance: Option<PromptOptimizer>
    ghost var constructed: nat

    /** At most one optimizer is ever built, and it is the one held. */
    ghost predicate Valid()
      reads this, if instance.Some? then {instance.value} else {}
    {
      && constructed <= 1
      && (instance.None? <==> constructed == 0)
      && (instance.Some? ==> instance.value.Valid())
    }

    constructor ()
      ensures Valid() && instance.None?
    {
      instance := None;
      constructed := 0;
    }

    /** `get_optimizer`: build on the first call, return the same object afterwards. */
    method GetOptimizer(genaiAvailable: bool, env: Environment, clientBuilds: bool) returns (o: PromptOptimizer)
      requires Valid()
      modifies this
      ensures Valid()
      ensures instance == Some(o)
      ensures old(instance).Some? ==> o == old(instance).value && constructed == old(constructed)
      ensures old(instance).None? ==> fresh(o) && constructed == 1
      ensures old(instance).None? ==> o.BuiltFrom(genaiAvailable, env, clientBuilds)
    {
      if instance.None? {
        var created := new PromptOptimizer(genaiAvailable, env, clientBuilds);
        instance := Some(created);
        constructed := constructed + 1;
      }
      o := instance.value;
    }

    /** The module-level `optimize_prompt`. */
    method OptimizeText(text: string, genaiAvailable: bool, env: Environment, clientBuilds: bool,
                        generate: Generator)
      returns (r: Result<string, OptimizeError>)
      requires Valid()
      modifies this
      ensures Valid()
      ensures instance.Some? && (old(instance).Some? ==> instance == old(instance))
      ensures old(instance).Some? ==> constructed == old(constructed)
      ensures old(instance).None? ==> fresh(instance.value) && constructed == 1
      ensures old(instance).None? ==> instance.value.BuiltFrom(genaiAvailable, env, clientBuilds)
      ensures Strip(text) == "" ==> r == Failure(EmptyInput)
      ensures Strip(text) != "" && !instance.value.IsAvailable() ==>
        r == Failure(Unavailable(instance.value.StatusMessage()))
      ensures Strip(text) != "" && instance.value.IsAvailable() ==>
        match generate(instance.value.RequestFor(text))
        case Failure(message) => r == Failure(RequestFailed(message))
        case Success(response) => r == Success(ResponseText(response))
    {
      var optimizer := GetOptimizer(genaiAvailable, env, clientBuilds);
      r := optimizer.OptimizePrompt(text, generate);
    }

    /** `is_optimizer_available`. */
    method IsOptimizerAvailable(genaiAvailable: bool, env: Environment, clientBuilds: bool) returns (b: bool)
      requires Valid()
      modifies this
      ensures Valid()
      ensures instance.Some? && (old(instance).Some? ==> instance == old(instance))
      ensures old(instance).Some? ==> constructed == old(constructed)
      ensures old(instance).None? ==> fresh(instance.value) && constructed == 1
      ensures old(instance).None? ==> instance.value.BuiltFrom(genaiAvailable, env, clientBuilds)
      ensures b == instance.value.IsAvailable()
      ensures b <==> instance.value.StatusMessage() == ReadyMessage
    {
      var optimizer := GetOptimizer(genaiAvailable, env, clientBuilds);
      b := optimizer.IsAvailable();
    }

    /** `get_optimizer_status`. */
    method GetOptimizerStatus(genaiAvailable: bool, env: Environment, clientBuilds: bool) returns (m: string)
      requires Valid()
      modifies this
      ensures Valid()
      ensures instance.Some? && (old(instance).Some? ==> instance == old(instance))
      ensures old(instance).Some? ==> constructed == old(constructed)
      ensures old(instance).None? ==> fresh(instance.value) && constructed == 1
      ensures old(instance).None? ==> instance.value.BuiltFrom(genaiAvailable, env, clientBuilds)
      ensures m == instance.value.StatusMessage()
      ensures m in {MissingLibraryMessage, MissingKeyMessage, ClientFailedMessage, ReadyMessage}
    {
      var optimizer := GetOptimizer(genaiAvailable, env, clientBuilds);
      m := optimizer.StatusMessage();
    }
  }
}
