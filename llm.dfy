/**
 * The `llm(prompt, system)` wrapper of content_engine.py and llm_summary.py: the
 * backend is chosen once from LLM_PROVIDER, and every call returns some text.
 * Which text is not modelled: a reply is an arbitrary function of the position of
 * the call in the session, the prompt and the system instruction, so it covers the
 * real providers and the "[FAKE AI OUTPUT]" placeholders alike.
 */
module Llm {
  import opened Wrappers
  import opened Text

  datatype Backend = Gemini | OpenAI

  const DefaultProvider := "openai"

  /** `os.getenv("LLM_PROVIDER") or "openai"`: `None` is an unset variable, and an
      empty value is falsy, so it also falls back to "openai". */
  function ProviderSetting(env: Option<string>): string
  {
    if env.Some? && env.value != [] then env.value else DefaultProvider
  }

  /** The provider name, `ProviderSetting(env).strip().lower()`; the fallback is
      already in that form (`ProviderNameAsWritten`). */
  function ProviderName(env: Option<string>): string
  {
    if env.Some? && env.value != [] then LowerAscii(Strip(env.value)) else DefaultProvider
  }

  /** `ProviderName` is the source's expression: the fallback is stripped and
      lower-cased like any other value. */
  lemma ProviderNameAsWritten(env: Option<string>)
    ensures ProviderName(env) == LowerAscii(Strip(ProviderSetting(env)))
  {
    if !(env.Some? && env.value != []) {
      var d := ProviderSetting(env);
      assert d == DefaultProvider;
      StripLowerFixed(d);
    }
  }

  /** The dispatch of `llm`: Gemini exactly for the provider name "gemini". */
  function SelectBackend(name: string): Backend
  {
    if name == "gemini" then Gemini else OpenAI
  }

  /** Only an LLM_PROVIDER whose trimmed, lower-cased value is "gemini" selects Gemini;
      an unset or empty variable selects OpenAI. */
  lemma ProviderDispatch(env: Option<string>)
    ensures SelectBackend(ProviderName(env)) == Gemini
        <==> env.Some? && env.value != [] && LowerAscii(Strip(env.value)) == "gemini"
  {
    assert DefaultProvider[0] != "gemini"[0];
  }

  /** The text-generation client as the core sees it: a backend fixed at start-up
      and the log of the calls made so far. */
  class TextGenerator<P> {
    const backend: Backend
    const gemini: (nat, P, string) -> string
    const openai: (nat, P, string) -> string
    var calls: seq<(P, string)>

    constructor (providerEnv: Option<string>, gemini: (nat, P, string) -> string, openai: (nat, P, string) -> string)
      ensures backend == SelectBackend(ProviderName(providerEnv))
      ensures this.gemini == gemini && this.openai == openai
      ensures calls == []
    {
      backend := SelectBackend(ProviderName(providerEnv));
      this.gemini := gemini;
      this.openai := openai;
      calls := [];
    }

    /** The reply function of the selected backend. */
    function Answers(): (nat, P, string) -> string
    {
      if backend == Gemini then gemini else openai
    }

    /** The reply of the selected backend to the call with index `n`. */
    function Reply(n: nat, prompt: P, system: string): string
    {
      Answers()(n, prompt, system)
    }

    /** `llm(prompt, system)`: one call, logged, answered by the selected backend. */
    method Complete(prompt: P, system: string) returns (text: string)
      modifies this
      ensures calls == old(calls) + [(prompt, system)]
      ensures text == Reply(|old(calls)|, prompt, system)
    {
      text := Reply(|calls|, prompt, system);
      calls := calls + [(prompt, system)];
    }
  }
}
