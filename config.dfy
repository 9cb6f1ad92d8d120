/**
 * Provider selection (src/config.py): which LLM handles exist for the
 * credentials that are set, which one is the default, and which one each of
 * the six agent roles uses. Credentials are the environment; a handle is the
 * client class and model name the tool would construct.
 */
module Config {
  import opened Common
  import opened Env

  /** Keys of the provider table. */
  datatype Provider = Gpt4o | Gemini25 | Claude35 | Grok4

  /** The LangChain chat-model classes the tool instantiates. */
  datatype Client = ChatOpenAI | ChatGoogleGenerativeAI | ChatAnthropic | ChatGrok

  /** An opaque reference to a configured LLM backend. */
  datatype Handle = Handle(client: Client, model: string)

  /** The six agent roles of the pipeline. */
  datatype Role = Fetcher | DataReviewer | Analyzer | AnalysisReviewer | Synthesizer | FinalReviewer

  type LlmTable = map<Provider, Handle>

  const AllRoles: set<Role> := {Fetcher, DataReviewer, Analyzer, AnalysisReviewer, Synthesizer, FinalReviewer}

  /** Default priority: the first provider of this list that is present becomes the default. */
  const Priority: seq<Provider> := [Gpt4o, Claude35, Gemini25, Grok4]

  const NoProviderError := "No LLM providers available. Please configure at least one API key."

  const OpenAiHandle := Handle(ChatOpenAI, "gpt-4o")
  const GoogleHandle := Handle(ChatGoogleGenerativeAI, "gemini-1.5-pro")
  const AnthropicHandle := Handle(ChatAnthropic, "claude-3-5-sonnet-20240620")

  /**
   * The grok4 entry: a Grok client when the optional `langchain_xai`
   * package imported, otherwise an OpenAI gpt-4o client in its place.
   */
  function GrokLlm(grokAvailable: bool): (h: Handle)
    ensures h.client == ChatGrok <==> grokAvailable
    ensures !grokAvailable ==> h == OpenAiHandle
  {
    if grokAvailable then Handle(ChatGrok, "grok-beta") else OpenAiHandle
  }

  /**
   * Builds the provider table by conditional inserts: one entry per API key
   * that is set, and a grok4 entry whatever is set.
   */
  method AvailableLlms(env: Environment, grokAvailable: bool) returns (llms: LlmTable)
    ensures Gpt4o in llms <==> IsSet(env, OpenAiApiKey)
    ensures Gemini25 in llms <==> IsSet(env, GoogleApiKey)
    ensures Claude35 in llms <==> IsSet(env, AnthropicApiKey)
    ensures Grok4 in llms && llms[Grok4] == GrokLlm(grokAvailable)
    ensures Gpt4o in llms ==> llms[Gpt4o] == OpenAiHandle
    ensures Gemini25 in llms ==> llms[Gemini25] == GoogleHandle
    ensures Claude35 in llms ==> llms[Claude35] == AnthropicHandle
    ensures DefaultLlm(llms).Ok?
  {
    llms := map[];
    if IsSet(env, OpenAiApiKey) {
      llms := llms[Gpt4o := OpenAiHandle];
    }
    if IsSet(env, GoogleApiKey) {
      llms := llms[Gemini25 := GoogleHandle];
    }
    if IsSet(env, AnthropicApiKey) {
      llms := llms[Claude35 := AnthropicHandle];
    }
    llms := llms[Grok4 := GrokLlm(grokAvailable)];
    DefaultFromGrok(llms);
  }

  /**
   * The default handle: the first provider in `Priority` that the table
   * holds; a `ValueError` when it holds none of them.
   */
  function DefaultLlm(llms: LlmTable): (r: Result<Handle>)
    ensures r.Ok? <==> exists i | 0 <= i < |Priority| :: Priority[i] in llms
    ensures r.Ok? ==> exists i | 0 <= i < |Priority| :: IsFirstPresent(llms, i) && r.value == llms[Priority[i]]
    ensures r.Err? ==> r.error == NoProviderError
  {
    if Gpt4o in llms then
      assert IsFirstPresent(llms, 0);
      Ok(llms[Gpt4o])
    else if Claude35 in llms then
      assert IsFirstPresent(llms, 1);
      Ok(llms[Claude35])
    else if Gemini25 in llms then
      assert IsFirstPresent(llms, 2);
      Ok(llms[Gemini25])
    else if Grok4 in llms then
      assert IsFirstPresent(llms, 3);
      Ok(llms[Grok4])
    else
      Err(NoProviderError)
  }

  /** `Priority[i]` is present and nothing before it in `Priority` is. */
  predicate IsFirstPresent(llms: LlmTable, i: int) {
    0 <= i < |Priority| && Priority[i] in llms &&
    forall j | 0 <= j < i :: Priority[j] !in llms
  }

  /** A table that holds grok4 always has a default, so the "no providers" error cannot happen. */
  lemma {:induction false} DefaultFromGrok(llms: LlmTable)
    requires Grok4 in llms
    ensures DefaultLlm(llms).Ok?
  {
    assert Priority[3] in llms;
  }

  /** The provider each role asks for first. */
  function Preferred(role: Role): Provider {
    match role
    case Fetcher | Analyzer => Gpt4o
    case DataReviewer | AnalysisReviewer | FinalReviewer => Claude35
    case Synthesizer => Gemini25
  }

  /**
   * The per-role table: each of the six roles gets its preferred provider
   * when present, otherwise the default; fails exactly when the default does.
   */
  function AgentLlmConfig(llms: LlmTable): (r: Result<map<Role, Handle>>)
    ensures r.Ok? <==> DefaultLlm(llms).Ok?
    ensures r.Err? ==> r.error == NoProviderError
    ensures r.Ok? ==> r.value.Keys == AllRoles
    ensures r.Ok? ==> forall role | role in r.value ::
      r.value[role] == if Preferred(role) in llms then llms[Preferred(role)] else DefaultLlm(llms).value
  {
    match DefaultLlm(llms)
    case Err(e) => Err(e)
    case Ok(default) =>
      var pick := (p: Provider) => if p in llms then llms[p] else default;
      Ok(map[
        Fetcher := pick(Gpt4o),
        DataReviewer := pick(Claude35),
        Analyzer := pick(Gpt4o),
        AnalysisReviewer := pick(Claude35),
        Synthesizer := pick(Gemini25),
        FinalReviewer := pick(Claude35)
      ])
  }

  /** Every role of a table built from any environment resolves to a handle that the table holds. */
  lemma {:induction false} RolesResolveToTableEntries(llms: LlmTable, role: Role)
    requires Grok4 in llms
    ensures AgentLlmConfig(llms).Ok?
    ensures AgentLlmConfig(llms).value[role] in llms.Values
  {
    DefaultFromGrok(llms);
    var i :| 0 <= i < |Priority| && IsFirstPresent(llms, i) && DefaultLlm(llms).value == llms[Priority[i]];
  }
}
