// `TokenExtractor`: reads the token usage and the generated text out of an
// LLM response. Map responses and JSON trees are read the same way, so both
// are modelled as a JSON tree; a string response is parsed first.

module TokenExtractor {
  import opened Common
  import opened JsonValues

  /**
   * The response object handed to the extractor.
   * `Text` is a `String`: `raw` is its text and `parsed` the tree Jackson's
   * `readTree` makes of it (None when parsing throws). `Tree` is a `Map`, a
   * `JsonNode` or any object Jackson's `valueToTree` can convert; `shown` is
   * its `toString()`.
   */
  datatype Response =
    | NullResponse
    | Text(raw: string, parsed: Option<Json>)
    | Tree(tree: Json, shown: string)

  datatype TokenCounts = TokenCounts(input: Int32, output: Int32)

  /** A usage field as a count: the `int` value of a number, absent when the
      field is missing or not a number. */
  function NumberField(usage: Json, field: string): (r: Option<Int32>)
    ensures r.Some? <==> Get(usage, field).Some? && Get(usage, field).value.JNum?
  {
    match Get(usage, field)
    case Some(JNum(n)) => Some(IntValue(n))
    case _ => None
  }

  /** One count: the OpenAI-style field, replaced by the Anthropic-style field
      when the first gave 0 (missing, not a number, or zero). */
  function CountOf(usage: Json, openAiField: string, anthropicField: string): Int32
  {
    var first := if NumberField(usage, openAiField).Some? then NumberField(usage, openAiField).value else 0;
    if first == 0 && NumberField(usage, anthropicField).Some? then NumberField(usage, anthropicField).value
    else first
  }

  /** `extractFromMap` / `extractFromJsonNode` of the response tree. */
  function UsageCounts(node: Json): TokenCounts
  {
    match Get(node, "usage")
    case None => TokenCounts(0, 0)
    case Some(usage) =>
      TokenCounts(CountOf(usage, "prompt_tokens", "input_tokens"),
                  CountOf(usage, "completion_tokens", "output_tokens"))
  }

  /** The `usage` object of a reply: none for a null reply, a string that
      does not parse, or a tree without the field. */
  function UsageOf(r: Response): Option<Json>
  {
    match r
    case NullResponse => None
    case Text(_, parsed) => if parsed.Some? then Get(parsed.value, "usage") else None
    case Tree(tree, _) => Get(tree, "usage")
  }

  /** A count as `extractFromMap` reads it: a non-zero OpenAI-style number is
      taken as it is, and otherwise the Anthropic-style number, if any. */
  predicate ReadAs(usage: Json, openAiField: string, anthropicField: string, count: Int32)
  {
    var first := NumberField(usage, openAiField);
    var second := NumberField(usage, anthropicField);
    if first.Some? && first.value != 0 then count == first.value
    else if second.Some? then count == second.value
    else count == 0
  }

  /** `extractTokens(response)`: any failure along the way yields (0, 0). */
  function ExtractTokens(r: Response): (counts: TokenCounts)
    ensures UsageOf(r).None? ==> counts == TokenCounts(0, 0)
    ensures UsageOf(r).Some? ==> ReadAs(UsageOf(r).value, "prompt_tokens", "input_tokens", counts.input)
    ensures UsageOf(r).Some? ==> ReadAs(UsageOf(r).value, "completion_tokens", "output_tokens", counts.output)
  {
    match r
    case NullResponse => TokenCounts(0, 0)
    case Text(_, parsed) => if parsed.Some? then UsageCounts(parsed.value) else TokenCounts(0, 0)
    case Tree(tree, _) => UsageCounts(tree)
  }

  /** An OpenAI usage block is read as given: prompt tokens are the input,
      completion tokens the output, whatever Anthropic fields sit beside them. */
  lemma OpenAIUsage(usage: map<string, Json>, prompt: Int32, completion: Int32, rest: map<string, Json>)
    requires prompt != 0 && completion != 0
    requires usage == rest["prompt_tokens" := JNum(prompt)]["completion_tokens" := JNum(completion)]
    ensures UsageCounts(JObj(map["usage" := JObj(usage)])) == TokenCounts(prompt, completion)
  {
  }

  /** An Anthropic usage block: input and output tokens are read when the
      OpenAI fields are absent. */
  lemma AnthropicUsage(input: Int32, output: Int32)
    ensures UsageCounts(JObj(map["usage" := JObj(map["input_tokens" := JNum(input), "output_tokens" := JNum(output)])]))
            == TokenCounts(input, output)
  {
    var usage := JObj(map["input_tokens" := JNum(input), "output_tokens" := JNum(output)]);
    assert Get(usage, "prompt_tokens").None?;
    assert Get(usage, "completion_tokens").None?;
  }

  /** Without a usage field, or with an unparseable string, both counts are 0. */
  lemma NoUsageMeansZero(r: Response)
    requires r.NullResponse? || (r.Text? && r.parsed.None?) ||
             (r.Tree? && Get(r.tree, "usage").None?)
    ensures ExtractTokens(r) == TokenCounts(0, 0)
  {
  }

  /** The input count depends only on the two input fields, the output count
      only on the two output fields. */
  lemma CountsIndependent(u1: Json, u2: Json)
    requires Get(u1, "prompt_tokens") == Get(u2, "prompt_tokens")
    requires Get(u1, "input_tokens") == Get(u2, "input_tokens")
    ensures CountOf(u1, "prompt_tokens", "input_tokens") == CountOf(u2, "prompt_tokens", "input_tokens")
  {
  }

  // ---------------------------------------------------------------------
  // Content
  // ---------------------------------------------------------------------

  predicate IsTextBlock(block: Json)
  {
    PathText(block, "type") == "text"
  }

  /** What one block contributes: its text if it is a text block. */
  function BlockText(block: Json): string
  {
    if IsTextBlock(block) then PathText(block, "text") else ""
  }

  /** The text of every block whose type is "text", in order. */
  function AnthropicText(blocks: seq<Json>): string
  {
    if |blocks| == 0 then ""
    else AnthropicText(blocks[..|blocks| - 1]) + BlockText(blocks[|blocks| - 1])
  }

  lemma {:induction false} AnthropicTextConcat(a: seq<Json>, b: seq<Json>)
    ensures AnthropicText(a + b) == AnthropicText(a) + AnthropicText(b)
    decreases |b|
  {
    if |b| == 0 {
      assert a + b == a;
    } else {
      var b' := b[..|b| - 1];
      var tail := BlockText(b[|b| - 1]);
      assert (a + b)[..|a + b| - 1] == a + b';
      assert (a + b)[|a + b| - 1] == b[|b| - 1];
      AnthropicTextConcat(a, b');
      AppendAssoc(AnthropicText(a), AnthropicText(b'), tail);
    }
  }

  /** Blocks of any other type contribute nothing. */
  lemma {:induction false} AnthropicTextSkipsOtherBlocks(blocks: seq<Json>)
    requires forall i :: 0 <= i < |blocks| ==> !IsTextBlock(blocks[i])
    ensures AnthropicText(blocks) == ""
    decreases |blocks|
  {
    if |blocks| > 0 {
      AnthropicTextSkipsOtherBlocks(blocks[..|blocks| - 1]);
    }
  }

  predicate IsAnthropic(provider: Option<string>)
  {
    provider.Some? && (EqualsIgnoreCase("anthropic", provider.value) || EqualsIgnoreCase("claude", provider.value))
  }

  /** The OpenAI shape: `choices[0].message.content`, else `choices[0].text`,
      each only when it is a string. */
  function ChoiceText(node: Json): Option<string>
  {
    match Get(node, "choices")
    case Some(JArr(choices)) =>
      if |choices| == 0 then None
      else
        var first := choices[0];
        var fromMessage :=
          match Get(first, "message")
          case Some(message) =>
            (match Get(message, "content") case Some(JStr(s)) => Some(s) case _ => None)
          case None => None;
        if fromMessage.Some? then fromMessage
        else (match Get(first, "text") case Some(JStr(s)) => Some(s) case _ => None)
    case _ => None
  }

  /** What `extractContent(response, provider)` returns for a tree: the
      joined Anthropic text when it is non-empty, then the OpenAI choice, then
      a top-level string `content`, and finally the response's `toString()`. */
  function ContentFromTree(node: Json, shown: string, provider: Option<string>): string
  {
    var anthropic :=
      if IsAnthropic(provider) then
        match Get(node, "content")
        case Some(JArr(blocks)) => if |blocks| > 0 && AnthropicText(blocks) != "" then Some(AnthropicText(blocks)) else None
        case _ => None
      else None;
    if anthropic.Some? then anthropic.value
    else if ChoiceText(node).Some? then ChoiceText(node).value
    else match Get(node, "content")
         case Some(JStr(s)) => s
         case _ => shown
  }

  function Content(r: Response, provider: Option<string>): string
  {
    match r
    case NullResponse => ""
    case Text(raw, _) => raw
    case Tree(tree, shown) => ContentFromTree(tree, shown, provider)
  }

  /** `extractContent`: the Anthropic blocks are appended to a buffer one by one. */
  method ExtractContent(r: Response, provider: Option<string>) returns (text: string)
    ensures text == Content(r, provider)
  {
    match r {
      case NullResponse => return "";
      case Text(raw, _) => return raw;
      case Tree(node, shown) =>
        if IsAnthropic(provider) {
          var content := Get(node, "content");
          if content.Some? && content.value.JArr? && |content.value.items| > 0 {
            var blocks := content.value.items;
            var buffer := "";
            for i := 0 to |blocks|
              invariant buffer == AnthropicText(blocks[..i])
            {
              assert blocks[..i + 1][..i] == blocks[..i];
              if PathText(blocks[i], "type") == "text" {
                buffer := buffer + PathText(blocks[i], "text");
              }
            }
            assert blocks[..|blocks|] == blocks;
            if |buffer| > 0 {
              return buffer;
            }
          }
        }
        var choice := ChoiceText(node);
        if choice.Some? {
          return choice.value;
        }
        var content := Get(node, "content");
        if content.Some? && content.value.JStr? {
          return content.value.s;
        }
        return shown;
    }
  }

  /** For Anthropic responses the text blocks are joined in order and every
      other block is skipped. */
  lemma AnthropicContentJoined(t1: string, t2: string, other: Json, shown: string)
    requires !IsTextBlock(other)
    ensures
      var block1 := JObj(map["type" := JStr("text"), "text" := JStr(t1)]);
      var block2 := JObj(map["type" := JStr("text"), "text" := JStr(t2)]);
      t1 + t2 != "" ==>
        ContentFromTree(JObj(map["content" := JArr([block1, other, block2])]), shown, Some("Anthropic")) == t1 + t2
  {
    var block1 := JObj(map["type" := JStr("text"), "text" := JStr(t1)]);
    var block2 := JObj(map["type" := JStr("text"), "text" := JStr(t2)]);
    assert [block1, other, block2] == [block1, other] + [block2];
    assert [block1, other] == [block1] + [other];
    assert [block1][..0] == [];
    assert AnthropicText([block1]) == t1;
    assert AnthropicText([block1, other]) == t1;
    assert AnthropicText([block1, other, block2]) == t1 + t2;
    assert EqualsIgnoreCase("anthropic", "Anthropic");
  }

  /** For any other provider the first choice's message content is returned. */
  lemma OpenAIContent(reply: string, shown: string)
    ensures
      var message := JObj(map["role" := JStr("assistant"), "content" := JStr(reply)]);
      var node := JObj(map["choices" := JArr([JObj(map["message" := message])])]);
      ContentFromTree(node, shown, Some("openai")) == reply
  {
    assert !EqualsIgnoreCase("anthropic", "openai") by {
      assert Lower("anthropic")[0] != Lower("openai")[0];
    }
    assert !EqualsIgnoreCase("claude", "openai") by {
      assert Lower("claude")[0] != Lower("openai")[0];
    }
  }
}
