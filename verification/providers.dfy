/**
 * Provider selection (`getLLM`) and key configuration (`setLLMAPI`).
 * The token count of the rendered text is an input: the tokenizer is foreign.
 */
module Providers {
  import opened Results
  import opened JsValue

  datatype Provider = Anthropic | Groq | OpenAI

  /** The API keys held by an instance; a key counts as set when it is truthy. */
  datatype Keys = Keys(openai: Value, groq: Value, anthropic: Value)

  /** The client `getLLM` constructs: provider, key, model id, context size and timeout. */
  datatype Choice = Choice(provider: Provider, apiKey: Value, model: string, contextSize: nat, timeoutMs: nat)

  /** Every client is built with a 20-second timeout. */
  const TIMEOUT_MS: nat := 20000

  /** The default ranking of providers. */
  const DEFAULT_PREFERENCES: seq<string> := ["OPENAI", "ANTHROPIC", "GROQ"]

  /** The provider a preference name denotes; the `switch` ignores other names. */
  function ProviderNamed(name: string): Option<Provider> {
    if name == "ANTHROPIC" then Some(Anthropic)
    else if name == "GROQ" then Some(Groq)
    else if name == "OPENAI" then Some(OpenAI)
    else None
  }

  function KeyOf(keys: Keys, p: Provider): Value {
    match p
    case Anthropic => keys.anthropic
    case Groq => keys.groq
    case OpenAI => keys.openai
  }

  /**
   * A model variant of a provider and the token counts it is chosen for:
   * at least `minTokens`, and below `maxTokens` when that is given.
   */
  datatype Variant = Variant(model: string, contextSize: nat, minTokens: nat, maxTokens: Option<nat>)

  predicate Covers(v: Variant, tokens: nat) {
    v.minTokens <= tokens && (v.maxTokens.None? || tokens < v.maxTokens.value)
  }

  /** The variant table: the brackets and model ids each provider offers. */
  function Variants(p: Provider): seq<Variant> {
    match p
    case Anthropic => [Variant("claude-3-opus-20240229", 120000, 208001, None)]
    case Groq => [Variant("llama3-70b-8192", 8100, 0, Some(8100)),
                  Variant("mixtral-8x7b-32768", 32000, 8100, Some(32000))]
    case OpenAI => [Variant("gpt-4o", 128000, 0, Some(64001)),
                    Variant("gpt-4o-mini", 128000, 64001, Some(128000))]
  }

  /** A provider qualifies when its key is set and one of its variants covers the token count. */
  predicate Qualifies(p: Provider, keys: Keys, tokens: nat) {
    Truthy(KeyOf(keys, p)) && exists i :: 0 <= i < |Variants(p)| && Covers(Variants(p)[i], tokens)
  }

  predicate QualifiesNamed(name: string, keys: Keys, tokens: nat) {
    ProviderNamed(name).Some? && Qualifies(ProviderNamed(name).value, keys, tokens)
  }

  /** Variants of one provider never overlap, so the covering variant is unique. */
  lemma VariantsDisjoint(p: Provider, tokens: nat, i: nat, j: nat)
    requires i < |Variants(p)| && j < |Variants(p)|
    requires Covers(Variants(p)[i], tokens) && Covers(Variants(p)[j], tokens)
    ensures i == j
  {
  }

  /** One `case` of the `switch` in `getLLM`: the client for `p`, or `None` to fall through. */
  function Offer(p: Provider, key: Value, tokens: nat): (r: Option<Choice>)
    ensures r.Some? <==> Truthy(key) && exists i :: 0 <= i < |Variants(p)| && Covers(Variants(p)[i], tokens)
    ensures r.Some? ==> exists i :: 0 <= i < |Variants(p)| && Covers(Variants(p)[i], tokens) &&
                          r.value == Choice(p, key, Variants(p)[i].model, Variants(p)[i].contextSize, TIMEOUT_MS)
  {
    match p
    case Anthropic =>
      if Truthy(key) && tokens > 208000 then
        assert Covers(Variants(p)[0], tokens);
        Some(Choice(Anthropic, key, "claude-3-opus-20240229", 120000, TIMEOUT_MS))
      else None
    case Groq =>
      if Truthy(key) && tokens < 32000 then
        if tokens < 8100 then assert Covers(Variants(p)[0], tokens); Some(Choice(Groq, key, "llama3-70b-8192", 8100, TIMEOUT_MS))
        else assert Covers(Variants(p)[1], tokens); Some(Choice(Groq, key, "mixtral-8x7b-32768", 32000, TIMEOUT_MS))
      else None
    case OpenAI =>
      if Truthy(key) && tokens < 128000 then
        if tokens > 64000 then assert Covers(Variants(p)[1], tokens); Some(Choice(OpenAI, key, "gpt-4o-mini", 128000, TIMEOUT_MS))
        else assert Covers(Variants(p)[0], tokens); Some(Choice(OpenAI, key, "gpt-4o", 128000, TIMEOUT_MS))
      else None
  }

  /**
   * `getLLM`: walk the ranked preference list and return the first provider
   * that qualifies, or `None` (the source's `null`) when none does.
   */
  function Select(prefs: seq<string>, keys: Keys, tokens: nat): (r: Option<Choice>)
    ensures r.None? <==> forall i :: 0 <= i < |prefs| ==> !QualifiesNamed(prefs[i], keys, tokens)
    ensures r.Some? ==>
              exists i :: 0 <= i < |prefs| && QualifiesNamed(prefs[i], keys, tokens)
                          && ProviderNamed(prefs[i]) == Some(r.value.provider)
                          && (forall j :: 0 <= j < i ==> !QualifiesNamed(prefs[j], keys, tokens))
    ensures r.Some? ==> r == Offer(r.value.provider, KeyOf(keys, r.value.provider), tokens)
  {
    if |prefs| == 0 then None
    else
      var here := match ProviderNamed(prefs[0])
        case None => None
        case Some(p) => Offer(p, KeyOf(keys, p), tokens);
      if here.Some? then here
      else
        var r := Select(prefs[1..], keys, tokens);
        assert forall i :: 1 <= i < |prefs| ==> prefs[i] == prefs[1..][i - 1];
        if r.Some? then
          var i :| 0 <= i < |prefs[1..]| && QualifiesNamed(prefs[1..][i], keys, tokens)
                   && ProviderNamed(prefs[1..][i]) == Some(r.value.provider)
                   && (forall j :: 0 <= j < i ==> !QualifiesNamed(prefs[1..][j], keys, tokens));
          assert forall j :: 0 <= j < i + 1 ==> !QualifiesNamed(prefs[j], keys, tokens) by {
            forall j | 0 <= j < i + 1 ensures !QualifiesNamed(prefs[j], keys, tokens) {
              if j > 0 { assert prefs[j] == prefs[1..][j - 1]; }
            }
          }
          assert prefs[i + 1] == prefs[1..][i];
          r
        else r
  }

  /** A provider without a key or outside its bracket is passed over whatever its rank. */
  lemma SkipUnqualifiedHead(prefs: seq<string>, keys: Keys, tokens: nat)
    requires |prefs| > 0 && !QualifiesNamed(prefs[0], keys, tokens)
    ensures Select(prefs, keys, tokens) == Select(prefs[1..], keys, tokens)
  {
  }

  /** The first-ranked provider wins whenever it qualifies. */
  lemma FirstQualifyingWins(prefs: seq<string>, keys: Keys, tokens: nat)
    requires |prefs| > 0 && QualifiesNamed(prefs[0], keys, tokens)
    ensures Select(prefs, keys, tokens).Some?
    ensures Select(prefs, keys, tokens).value.provider == ProviderNamed(prefs[0]).value
  {
  }

  /** The token brackets and model thresholds of the three providers. */
  lemma Brackets(keys: Keys, tokens: nat)
    ensures Qualifies(Anthropic, keys, tokens) <==> Truthy(keys.anthropic) && tokens > 208000
    ensures Qualifies(Groq, keys, tokens) <==> Truthy(keys.groq) && tokens < 32000
    ensures Qualifies(OpenAI, keys, tokens) <==> Truthy(keys.openai) && tokens < 128000
    ensures Qualifies(Groq, keys, tokens) ==>
              Offer(Groq, keys.groq, tokens).value.model ==
                (if tokens < 8100 then "llama3-70b-8192" else "mixtral-8x7b-32768")
    ensures Qualifies(OpenAI, keys, tokens) ==>
              Offer(OpenAI, keys.openai, tokens).value.model ==
                (if tokens > 64000 then "gpt-4o-mini" else "gpt-4o")
  {
    if Truthy(keys.anthropic) && tokens > 208000 {
      assert Covers(Variants(Anthropic)[0], tokens);
    }
    if Truthy(keys.groq) && tokens < 32000 {
      if tokens < 8100 { assert Covers(Variants(Groq)[0], tokens); }
      else { assert Covers(Variants(Groq)[1], tokens); }
    }
    if Truthy(keys.openai) && tokens < 128000 {
      if tokens > 64000 { assert Covers(Variants(OpenAI)[1], tokens); }
      else { assert Covers(Variants(OpenAI)[0], tokens); }
    }
  }

  /**
   * A chosen Groq or OpenAI model's context size exceeds the token count;
   * Anthropic is only chosen when the count exceeds its context size, which is
   * how the source keeps that provider switched off in practice.
   */
  lemma ChosenContextSize(prefs: seq<string>, keys: Keys, tokens: nat)
    requires Select(prefs, keys, tokens).Some?
    ensures var c := Select(prefs, keys, tokens).value;
            if c.provider == Anthropic then c.contextSize < tokens else tokens < c.contextSize
  {
  }

  /**
   * `setLLMAPI(provider, value)`: stores the key of a known provider and
   * answers `true`; any other name changes nothing and answers `false`.
   */
  function SetKey(keys: Keys, provider: string, value: Value): (r: (bool, Keys))
    ensures r.0 <==> ProviderNamed(provider).Some?
    ensures r.0 ==> KeyOf(r.1, ProviderNamed(provider).value) == value
    ensures forall p :: ProviderNamed(provider) != Some(p) ==> KeyOf(r.1, p) == KeyOf(keys, p)
  {
    if provider == "ANTHROPIC" then (true, keys.(anthropic := value))
    else if provider == "GROQ" then (true, keys.(groq := value))
    else if provider == "OPENAI" then (true, keys.(openai := value))
    else (false, keys)
  }
}
