// The parts of the LangChain instrumentor
// (`genai_telemetry/instrumentation/langchain_inst.py`) that decide what a
// span records: the model name and provider read from an LLM instance, and
// the number of documents a retriever returned.

module LangChainInstrumentation {
  import opened Common

  /** An attribute value as `_extract_model_info` sees it: whether it is
      truthy, and its `str()`. */
  datatype PyValue = PyValue(truthy: bool, text: string)

  /** The attributes tried for the model name, in order. */
  const ModelAttributes: seq<string> := ["model_name", "model", "model_id", "repo_id"]

  /** `str()` of the first truthy attribute among `names`, if any. */
  function FirstTruthy(names: seq<string>, attrs: map<string, PyValue>): (r: Option<string>)
    ensures r.Some? ==> exists n :: n in names && TruthyAttr(n, attrs) && attrs[n].text == r.value
  {
    if |names| == 0 then None
    else if names[0] in attrs && attrs[names[0]].truthy then Some(attrs[names[0]].text)
    else FirstTruthy(names[1..], attrs)
  }

  predicate TruthyAttr(name: string, attrs: map<string, PyValue>)
  {
    name in attrs && attrs[name].truthy
  }

  /** A found name is the text of a truthy attribute, and every attribute
      tried before it is missing or falsy. */
  lemma {:induction false} FirstTruthyIsFirst(names: seq<string>, attrs: map<string, PyValue>)
    requires FirstTruthy(names, attrs).Some?
    ensures exists i :: 0 <= i < |names| && TruthyAttr(names[i], attrs)
                        && attrs[names[i]].text == FirstTruthy(names, attrs).value
                        && (forall j :: 0 <= j < i ==> !TruthyAttr(names[j], attrs))
  {
    if !TruthyAttr(names[0], attrs) {
      FirstTruthyIsFirst(names[1..], attrs);
      var i :| 0 <= i < |names[1..]| && TruthyAttr(names[1..][i], attrs)
               && attrs[names[1..][i]].text == FirstTruthy(names[1..], attrs).value
               && (forall j :: 0 <= j < i ==> !TruthyAttr(names[1..][j], attrs));
      assert forall j :: 0 <= j < i + 1 ==> !TruthyAttr(names[j], attrs) by {
        forall j | 0 <= j < i + 1
          ensures !TruthyAttr(names[j], attrs)
        {
          if j > 0 {
            assert names[j] == names[1..][j - 1];
          }
        }
      }
      assert names[i + 1] == names[1..][i];
    }
  }

  /** Nothing is found exactly when no attribute tried is truthy. */
  lemma {:induction false} FirstTruthyNone(names: seq<string>, attrs: map<string, PyValue>)
    ensures FirstTruthy(names, attrs).None? <==> forall i :: 0 <= i < |names| ==> !TruthyAttr(names[i], attrs)
  {
    if |names| > 0 {
      FirstTruthyNone(names[1..], attrs);
      assert forall i :: 0 < i < |names| ==> names[i] == names[1..][i - 1];
    }
  }

  /** The loop of `_extract_model_info` over the model attributes. */
  method ModelName(attrs: map<string, PyValue>) returns (modelName: string)
    ensures modelName == OrElse(FirstTruthy(ModelAttributes, attrs), "unknown")
  {
    modelName := "unknown";
    var i := 0;
    while i < |ModelAttributes|
      invariant 0 <= i <= |ModelAttributes|
      invariant modelName == "unknown"
      invariant FirstTruthy(ModelAttributes[i..], attrs) == FirstTruthy(ModelAttributes, attrs)
    {
      var attr := ModelAttributes[i];
      assert ModelAttributes[i..][1..] == ModelAttributes[i + 1..];
      if attr in attrs {
        var val := attrs[attr];
        if val.truthy {
          modelName := val.text;
          break;
        }
      }
      i := i + 1;
    }
  }

  // ---------------------------------------------------------------------
  // The provider
  // ---------------------------------------------------------------------

  datatype Provider =
    | OpenAIProvider
    | AnthropicProvider
    | CohereProvider
    | HuggingFaceProvider
    | GoogleProvider
    | BedrockProvider
    | OllamaProvider
    | MistralProvider
    | DefaultProvider

  /** The `model_provider` string recorded for each provider. */
  function ProviderName(p: Provider): string
  {
    match p
    case OpenAIProvider => "openai"
    case AnthropicProvider => "anthropic"
    case CohereProvider => "cohere"
    case HuggingFaceProvider => "huggingface"
    case GoogleProvider => "google"
    case BedrockProvider => "aws_bedrock"
    case OllamaProvider => "ollama"
    case MistralProvider => "mistral"
    case DefaultProvider => "langchain"
  }

  /** The `elif` chain on the lower-cased class name `lc`. */
  function Classify(lc: string): (p: Provider)
    ensures p != DefaultProvider ==> Matches(lc, p)
    ensures p == DefaultProvider ==> forall q :: !Matches(lc, q)
  {
    if Contains(lc, "openai") || Contains(lc, "gpt") then OpenAIProvider
    else if Contains(lc, "anthropic") || Contains(lc, "claude") then AnthropicProvider
    else if Contains(lc, "cohere") then CohereProvider
    else if Contains(lc, "huggingface") || Contains(lc, "hf") then HuggingFaceProvider
    else if Contains(lc, "google") || Contains(lc, "gemini") || Contains(lc, "palm") then GoogleProvider
    else if Contains(lc, "bedrock") then BedrockProvider
    else if Contains(lc, "ollama") then OllamaProvider
    else if Contains(lc, "mistral") then MistralProvider
    else DefaultProvider
  }

  /** The provider of an LLM class, from its lower-cased name. */
  function ProviderOf(className: string): Provider
  {
    Classify(Lower(className))
  }

  /** The rules in the order they are tried. */
  const RuleOrder: seq<Provider> :=
    [OpenAIProvider, AnthropicProvider, CohereProvider, HuggingFaceProvider,
     GoogleProvider, BedrockProvider, OllamaProvider, MistralProvider]

  /** The rule for `p` matches the lower-cased class name `lc`. */
  predicate Matches(lc: string, p: Provider)
  {
    match p
    case OpenAIProvider => Contains(lc, "openai") || Contains(lc, "gpt")
    case AnthropicProvider => Contains(lc, "anthropic") || Contains(lc, "claude")
    case CohereProvider => Contains(lc, "cohere")
    case HuggingFaceProvider => Contains(lc, "huggingface") || Contains(lc, "hf")
    case GoogleProvider => Contains(lc, "google") || Contains(lc, "gemini") || Contains(lc, "palm")
    case BedrockProvider => Contains(lc, "bedrock")
    case OllamaProvider => Contains(lc, "ollama")
    case MistralProvider => Contains(lc, "mistral")
    case DefaultProvider => false
  }

  /** The first rule in `rules` that matches, as a rule table would choose. */
  function FirstMatch(lc: string, rules: seq<Provider>): (r: Provider)
    ensures r != DefaultProvider ==> r in rules && Matches(lc, r)
  {
    if |rules| == 0 then DefaultProvider
    else if Matches(lc, rules[0]) then rules[0]
    else FirstMatch(lc, rules[1..])
  }

  /** The table's choice is the first matching rule, and nothing matches when
      it falls back to the default. */
  lemma {:induction false} FirstMatchIsFirst(lc: string, rules: seq<Provider>)
    requires DefaultProvider !in rules
    requires forall i, j :: 0 <= i < j < |rules| ==> rules[i] != rules[j]
    ensures FirstMatch(lc, rules) == DefaultProvider <==> forall q :: q in rules ==> !Matches(lc, q)
    ensures forall i :: 0 <= i < |rules| && rules[i] == FirstMatch(lc, rules) ==>
              forall j :: 0 <= j < i ==> !Matches(lc, rules[j])
  {
    if |rules| > 0 && !Matches(lc, rules[0]) {
      FirstMatchIsFirst(lc, rules[1..]);
      assert forall i :: 0 < i < |rules| ==> rules[i] == rules[1..][i - 1];
    }
  }

  lemma FirstMatchCons(lc: string, p: Provider, rest: seq<Provider>)
    ensures FirstMatch(lc, [p] + rest) == if Matches(lc, p) then p else FirstMatch(lc, rest)
  {
    assert ([p] + rest)[1..] == rest;
  }

  /** The `elif` chain is the rule table read in order. */
  lemma ClassifyIsFirstMatch(lc: string)
    ensures Classify(lc) == FirstMatch(lc, RuleOrder)
  {
    RuleOrderUnfolds(lc);
  }

  /** The rule table, tried rule by rule. */
  lemma RuleOrderUnfolds(lc: string)
    ensures FirstMatch(lc, RuleOrder) ==
      if Matches(lc, OpenAIProvider) then OpenAIProvider
      else if Matches(lc, AnthropicProvider) then AnthropicProvider
      else if Matches(lc, CohereProvider) then CohereProvider
      else if Matches(lc, HuggingFaceProvider) then HuggingFaceProvider
      else if Matches(lc, GoogleProvider) then GoogleProvider
      else if Matches(lc, BedrockProvider) then BedrockProvider
      else if Matches(lc, OllamaProvider) then OllamaProvider
      else if Matches(lc, MistralProvider) then MistralProvider
      else DefaultProvider
  {
    var r5 := [GoogleProvider, BedrockProvider, OllamaProvider, MistralProvider];
    var r4 := [HuggingFaceProvider] + r5;
    var r3 := [CohereProvider] + r4;
    var r2 := [AnthropicProvider] + r3;
    assert RuleOrder == [OpenAIProvider] + r2;
    FirstMatchCons(lc, OpenAIProvider, r2);
    FirstMatchCons(lc, AnthropicProvider, r3);
    FirstMatchCons(lc, CohereProvider, r4);
    FirstMatchCons(lc, HuggingFaceProvider, r5);
    LastRulesUnfold(lc);
  }

  /** The last four rules, tried one by one. */
  lemma LastRulesUnfold(lc: string)
    ensures FirstMatch(lc, [GoogleProvider, BedrockProvider, OllamaProvider, MistralProvider]) ==
      if Matches(lc, GoogleProvider) then GoogleProvider
      else if Matches(lc, BedrockProvider) then BedrockProvider
      else if Matches(lc, OllamaProvider) then OllamaProvider
      else if Matches(lc, MistralProvider) then MistralProvider
      else DefaultProvider
  {
    var r8: seq<Provider> := [MistralProvider];
    var r7 := [OllamaProvider] + r8;
    var r6 := [BedrockProvider] + r7;
    assert [GoogleProvider, BedrockProvider, OllamaProvider, MistralProvider] == [GoogleProvider] + r6;
    FirstMatchCons(lc, GoogleProvider, r6);
    FirstMatchCons(lc, BedrockProvider, r7);
    FirstMatchCons(lc, OllamaProvider, r8);
    FirstMatchCons(lc, MistralProvider, []);
    assert [MistralProvider] + [] == r8;
  }

  /** Earlier rules win: a class name mentioning both "gpt" and "claude" is
      attributed to OpenAI. */
  lemma EarlierRuleWins(className: string)
    requires Contains(Lower(className), "gpt") && Contains(Lower(className), "claude")
    ensures ProviderName(ProviderOf(className)) == "openai"
  {
  }

  /** `_extract_model_info(instance)`: `attrs` are the instance's attributes
      and `className` the name of its class. */
  method ExtractModelInfo(attrs: map<string, PyValue>, className: string) returns (modelName: string, modelProvider: string)
    ensures modelName == OrElse(FirstTruthy(ModelAttributes, attrs), "unknown")
    ensures modelProvider == ProviderName(FirstMatch(Lower(className), RuleOrder))
  {
    modelName := ModelName(attrs);
    ClassifyIsFirstMatch(Lower(className));
    modelProvider := ProviderName(ProviderOf(className));
  }

  /** With no truthy model attribute and no matching class name the span
      records ("unknown", "langchain"). */
  lemma NothingKnownGivesDefaults(attrs: map<string, PyValue>, className: string)
    requires forall i :: 0 <= i < |ModelAttributes| ==> !TruthyAttr(ModelAttributes[i], attrs)
    requires forall q :: q in RuleOrder ==> !Matches(Lower(className), q)
    ensures OrElse(FirstTruthy(ModelAttributes, attrs), "unknown") == "unknown"
    ensures ProviderName(FirstMatch(Lower(className), RuleOrder)) == "langchain"
  {
    FirstTruthyNone(ModelAttributes, attrs);
    FirstMatchIsFirst(Lower(className), RuleOrder);
  }

  // ---------------------------------------------------------------------
  // Retriever document count
  // ---------------------------------------------------------------------

  /** What a retriever call left in `result`: nothing (it raised), a list of
      the given length, or some other value. */
  datatype RetrieverResult = NoResult | ListResult(length: nat) | OtherResult(truthy: bool)

  /** `len(result) if result and isinstance(result, list) else 0`. */
  function DocsCount(result: RetrieverResult): (n: nat)
    ensures n > 0 <==> result.ListResult? && result.length > 0
    ensures result.ListResult? ==> n == result.length
  {
    if result.ListResult? && result.length > 0 then result.length else 0
  }
}
