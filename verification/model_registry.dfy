/** The registry of chat models the pipeline may be configured with: each
    model name maps to the client class that serves it. The client classes
    themselves are not modelled; a class is identified by name.
 */
module ModelRegistry {

  datatype LlmClass = ChatOllama | ChatOpenAI | ChatGoogleGenerativeAI

  /** `LLM_CLASS_MAP`. */
  const LlmClassMap: map<string, LlmClass> := map[
    "gemma3:4b" := ChatOllama,
    "gemma3:12b" := ChatOllama,
    "qwen3:1.7b" := ChatOllama,
    "qwen3:4b" := ChatOllama,
    "qwen3:8b" := ChatOllama,
    "qwen3:14b" := ChatOllama,
    "qwen2.5:7b" := ChatOllama,
    "granite3.3:8b" := ChatOllama,
    "gpt-4o" := ChatOpenAI,
    "gpt-4o-mini" := ChatOpenAI,
    "gpt-4.1" := ChatOpenAI,
    "gpt-4.1-mini" := ChatOpenAI,
    "gemini-2.0-flash" := ChatGoogleGenerativeAI,
    "gemini-2.0-flash-lite" := ChatGoogleGenerativeAI
  ]

  /** `THINKING_MODELS`: the registered models that emit thinking blocks. */
  const ThinkingModels: seq<string> := ["qwen3:4b", "qwen3:8b", "qwen3:14b"]

  /** The models served by one client class. */
  function ServedBy(cls: LlmClass): (names: set<string>)
    ensures forall m :: m in names <==> m in LlmClassMap && LlmClassMap[m] == cls
  {
    set m | m in LlmClassMap && LlmClassMap[m] == cls
  }

  /** Every registered name is served by exactly one client class: the
      three classes' name sets are pairwise disjoint and together make up
      the registry. */
  lemma ServedByPartition()
    ensures ServedBy(ChatOllama) * ServedBy(ChatOpenAI) == {}
    ensures ServedBy(ChatOllama) * ServedBy(ChatGoogleGenerativeAI) == {}
    ensures ServedBy(ChatOpenAI) * ServedBy(ChatGoogleGenerativeAI) == {}
    ensures ServedBy(ChatOllama) + ServedBy(ChatOpenAI) + ServedBy(ChatGoogleGenerativeAI) == LlmClassMap.Keys
  {
  }

  /** The registered model names. */
  lemma RegistryNames()
    ensures LlmClassMap.Keys == {"gemma3:4b", "gemma3:12b", "qwen3:1.7b", "qwen3:4b", "qwen3:8b", "qwen3:14b",
                                 "qwen2.5:7b", "granite3.3:8b", "gpt-4o", "gpt-4o-mini", "gpt-4.1", "gpt-4.1-mini",
                                 "gemini-2.0-flash", "gemini-2.0-flash-lite"}
    ensures "" !in LlmClassMap
  {
  }

  /** Eight models are served locally by Ollama. */
  lemma OllamaModels()
    ensures ServedBy(ChatOllama) == {"gemma3:4b", "gemma3:12b", "qwen3:1.7b", "qwen3:4b", "qwen3:8b",
                                     "qwen3:14b", "qwen2.5:7b", "granite3.3:8b"}
  {
  }

  /** Four models are served by OpenAI and two by Google. */
  lemma HostedModels()
    ensures ServedBy(ChatOpenAI) == {"gpt-4o", "gpt-4o-mini", "gpt-4.1", "gpt-4.1-mini"}
    ensures ServedBy(ChatGoogleGenerativeAI) == {"gemini-2.0-flash", "gemini-2.0-flash-lite"}
  {
  }

  /** Every thinking model is a registered Ollama model. */
  lemma ThinkingModelsRegistered()
    ensures forall m :: m in ThinkingModels ==> m in LlmClassMap && LlmClassMap[m] == ChatOllama
  {
  }
}
