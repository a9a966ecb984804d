/**
 * Helpers for comparing foundation models through the Bedrock Converse API:
 * building a Converse request (with the model-family specific reasoning and
 * thinking settings), picking the answer text out of the returned content
 * blocks, and estimating a monthly bill from daily usage.
 */
module Utils {
  import opened Wrappers
  import opened Ascii

  // ---------------------------------------------------------------------------
  // The Converse request, as the value that is finally sent
  // ---------------------------------------------------------------------------

  /** A `{"text": ...}` block. */
  datatype TextBlock = TextBlock(text: string)

  /** A chat message: `{"role": ..., "content": [...]}`. */
  datatype Message = Message(role: string, content: seq<TextBlock>)

  /** `{"type": ..., "budget": ...}`, Claude's extended-thinking setting. */
  datatype Thinking = Thinking(kind: string, budget: int)

  /** The `inferenceConfig` dictionary. */
  datatype InferenceConfig = InferenceConfig(temperature: real, maxTokens: int, thinking: Option<Thinking>)

  /** The `additionalModelRequestFields` dictionary: `{"reasoning_effort": ...}`. */
  datatype AdditionalFields = AdditionalFields(reasoningEffort: string)

  /** The keyword arguments passed to `client.converse`; an absent key is `None`. */
  datatype ConverseRequest = ConverseRequest(
    modelId: string,
    messages: seq<Message>,
    system: seq<TextBlock>,
    inferenceConfig: InferenceConfig,
    additionalModelRequestFields: Option<AdditionalFields>)

  const DefaultSystemPrompt: string := "You are a helpful assistant."
  const DefaultTemperature: real := 0.0
  const DefaultMaxTokens: int := 2000

  /** Python truthiness of an optional string: neither `None` nor empty. */
  predicate Truthy(s: Option<string>)
  {
    s.Some? && s.value != ""
  }

  /** The lower-cased id names an OpenAI / GPT model. */
  predicate IsGptModel(modelId: string)
  {
    Contains(Lower(modelId), "openai") || Contains(Lower(modelId), "gpt")
  }

  /** The lower-cased id names a Claude model. */
  predicate IsClaudeModel(modelId: string)
  {
    Contains(Lower(modelId), "claude")
  }

  /**
   * The request `converse` sends, as a value: the base fields, the reasoning
   * effort for GPT models and the thinking budget inside the inference
   * configuration for Claude models.
   */
  function RequestFor(modelId: string, prompt: string, systemPrompt: string, temperature: real,
                      maxTokens: int, reasoningEffort: Option<string>, thinkingBudget: Option<int>): ConverseRequest
  {
    ConverseRequest(
      modelId,
      [Message("user", [TextBlock(prompt)])],
      [TextBlock(systemPrompt)],
      InferenceConfig(temperature, maxTokens,
                      if IsClaudeModel(modelId) && thinkingBudget.Some?
                      then Some(Thinking("enabled", thinkingBudget.value)) else None),
      if IsGptModel(modelId) && Truthy(reasoningEffort)
      then Some(AdditionalFields(reasoningEffort.value)) else None)
  }

  // ---------------------------------------------------------------------------
  // The request dictionaries, which `converse` builds and then updates in place
  // ---------------------------------------------------------------------------

  /** The mutable `inference_config` dictionary. */
  class InferenceConfigDict {
    var temperature: real
    var maxTokens: int
    var thinking: Option<Thinking>

    constructor (temperature: real, maxTokens: int)
      ensures this.temperature == temperature && this.maxTokens == maxTokens && thinking == None
    {
      this.temperature := temperature;
      this.maxTokens := maxTokens;
      thinking := None;
    }

    /** The dictionary's current contents. */
    function Value(): InferenceConfig
      reads this
    {
      InferenceConfig(temperature, maxTokens, thinking)
    }
  }

  /** The mutable `converse_params` dictionary; its `inferenceConfig` entry is a reference. */
  class ConverseParamsDict {
    var modelId: string
    var messages: seq<Message>
    var system: seq<TextBlock>
    var inferenceConfig: InferenceConfigDict
    var additionalModelRequestFields: Option<AdditionalFields>

    constructor (modelId: string, messages: seq<Message>, system: seq<TextBlock>, inferenceConfig: InferenceConfigDict)
      ensures this.modelId == modelId && this.messages == messages && this.system == system
      ensures this.inferenceConfig == inferenceConfig && additionalModelRequestFields == None
    {
      this.modelId := modelId;
      this.messages := messages;
      this.system := system;
      this.inferenceConfig := inferenceConfig;
      additionalModelRequestFields := None;
    }

    /** The request these dictionaries describe right now, following the shared reference. */
    function Value(): ConverseRequest
      reads this, inferenceConfig
    {
      ConverseRequest(modelId, messages, system, inferenceConfig.Value(), additionalModelRequestFields)
    }
  }

  /**
   * Builds the dictionaries the way `converse` does: the configuration is
   * placed into the parameters first and receives its `thinking` entry only
   * afterwards, which still reaches the request because the two share it.
   */
  method BuildRequest(modelId: string, prompt: string, systemPrompt: string := DefaultSystemPrompt,
                      temperature: real := DefaultTemperature, maxTokens: int := DefaultMaxTokens,
                      reasoningEffort: Option<string> := None, thinkingBudget: Option<int> := None)
    returns (request: ConverseRequest)
    ensures request == RequestFor(modelId, prompt, systemPrompt, temperature, maxTokens, reasoningEffort, thinkingBudget)
  {
    var inferenceConfig := new InferenceConfigDict(temperature, maxTokens);
    var converseParams := new ConverseParamsDict(modelId, [Message("user", [TextBlock(prompt)])],
                                                 [TextBlock(systemPrompt)], inferenceConfig);
    if (Contains(Lower(modelId), "openai") || Contains(Lower(modelId), "gpt")) && Truthy(reasoningEffort) {
      converseParams.additionalModelRequestFields := Some(AdditionalFields(reasoningEffort.value));
    }
    if Contains(Lower(modelId), "claude") && thinkingBudget.Some? {
      inferenceConfig.thinking := Some(Thinking("enabled", thinkingBudget.value));
    }
    request := converseParams.Value();
  }

  /** Every request carries the model id, one user message with the prompt, the system prompt and the sampling settings. */
  lemma RequestBaseFields(modelId: string, prompt: string, systemPrompt: string, temperature: real,
                          maxTokens: int, reasoningEffort: Option<string>, thinkingBudget: Option<int>)
    ensures var r := RequestFor(modelId, prompt, systemPrompt, temperature, maxTokens, reasoningEffort, thinkingBudget);
      r.modelId == modelId &&
      |r.messages| == 1 && r.messages[0].role == "user" && r.messages[0].content == [TextBlock(prompt)] &&
      r.system == [TextBlock(systemPrompt)] &&
      r.inferenceConfig.temperature == temperature && r.inferenceConfig.maxTokens == maxTokens
  {
  }

  /**
   * `additionalModelRequestFields` is present, holding the effort, exactly when
   * "openai" or "gpt" occurs case-insensitively in the id and the effort is a
   * non-empty string.
   */
  lemma ReasoningFieldIff(modelId: string, prompt: string, systemPrompt: string, temperature: real,
                          maxTokens: int, reasoningEffort: Option<string>, thinkingBudget: Option<int>)
    ensures var r := RequestFor(modelId, prompt, systemPrompt, temperature, maxTokens, reasoningEffort, thinkingBudget);
      (r.additionalModelRequestFields.Some? <==>
        (OccursIgnoringCase(modelId, "openai") || OccursIgnoringCase(modelId, "gpt")) &&
        reasoningEffort.Some? && |reasoningEffort.value| > 0) &&
      (r.additionalModelRequestFields.Some? ==>
        r.additionalModelRequestFields == Some(AdditionalFields(reasoningEffort.value)))
  {
    ContainsLowerIff(modelId, "openai");
    ContainsLowerIff(modelId, "gpt");
  }

  /**
   * The inference configuration holds `thinking` (enabled, with the budget)
   * exactly when "claude" occurs case-insensitively in the id and a budget is
   * given; a budget of 0 counts as given.
   */
  lemma ThinkingFieldIff(modelId: string, prompt: string, systemPrompt: string, temperature: real,
                         maxTokens: int, reasoningEffort: Option<string>, thinkingBudget: Option<int>)
    ensures var r := RequestFor(modelId, prompt, systemPrompt, temperature, maxTokens, reasoningEffort, thinkingBudget);
      (r.inferenceConfig.thinking.Some? <==> OccursIgnoringCase(modelId, "claude") && thinkingBudget.Some?) &&
      (r.inferenceConfig.thinking.Some? ==>
        r.inferenceConfig.thinking == Some(Thinking("enabled", thinkingBudget.value)))
  {
    ContainsLowerIff(modelId, "claude");
  }

  /**
   * Changing the case of the letters of the model id changes the `modelId`
   * entry and nothing else: the same optional fields are present.
   */
  lemma RequestCaseInsensitive(a: string, b: string, prompt: string, systemPrompt: string, temperature: real,
                               maxTokens: int, reasoningEffort: Option<string>, thinkingBudget: Option<int>)
    requires CaseVariant(a, b)
    ensures RequestFor(b, prompt, systemPrompt, temperature, maxTokens, reasoningEffort, thinkingBudget) ==
            RequestFor(a, prompt, systemPrompt, temperature, maxTokens, reasoningEffort, thinkingBudget).(modelId := b)
  {
    CaseVariantLower(a, b);
  }

  // ---------------------------------------------------------------------------
  // Picking the answer out of the response
  // ---------------------------------------------------------------------------

  /** A returned content block; reasoning-trace blocks have no `text` key. */
  datatype ContentBlock = ContentBlock(text: Option<string>)

  /** How `content[0]['text']` fails: `IndexError` on an empty list, `KeyError` on a block without text. */
  datatype ExtractError = NoContent | MissingText

  /** The text of the first block that has one. */
  function FirstText(content: seq<ContentBlock>): Option<string>
  {
    if content == [] then None
    else if content[0].text.Some? then content[0].text
    else FirstText(content[1..])
  }

  /** The answer: the first text in the content, or the error the lookup raises. */
  function ExpectedText(content: seq<ContentBlock>): Result<string, ExtractError>
  {
    if |content| == 0 then Err(NoContent)
    else match FirstText(content)
      case Some(t) => Ok(t)
      case None => Err(MissingText)
  }

  /** `FirstText` is the text of the block at index `i` when no earlier block has text. */
  lemma {:induction false} FirstTextAt(content: seq<ContentBlock>, i: nat)
    requires i < |content| && content[i].text.Some?
    requires forall j :: 0 <= j < i ==> content[j].text.None?
    ensures FirstText(content) == content[i].text
    decreases i
  {
    if i > 0 {
      FirstTextAt(content[1..], i - 1);
    }
  }

  /** `FirstText` finds nothing when no block has text. */
  lemma {:induction false} FirstTextNone(content: seq<ContentBlock>)
    requires forall j :: 0 <= j < |content| ==> content[j].text.None?
    ensures FirstText(content) == None
    decreases |content|
  {
    if content != [] {
      FirstTextNone(content[1..]);
    }
  }

  /** What `FirstText` returns is the text of a block, and every earlier block has none. */
  lemma {:induction false} FirstTextSome(content: seq<ContentBlock>)
    requires FirstText(content).Some?
    ensures exists i :: 0 <= i < |content| && content[i].text == FirstText(content) &&
                        forall j :: 0 <= j < i ==> content[j].text.None?
    decreases |content|
  {
    if content[0].text.None? {
      FirstTextSome(content[1..]);
      var i :| 0 <= i < |content[1..]| && content[1..][i].text == FirstText(content[1..]) &&
               forall j :: 0 <= j < i ==> content[1..][j].text.None?;
      assert content[i + 1].text == FirstText(content);
      assert forall j :: 0 < j < i + 1 ==> content[j] == content[1..][j - 1];
    }
  }

  /**
   * `converse`'s extraction: with several blocks, the first that has text
   * (reasoning traces are skipped); otherwise `content[0]['text']`.
   */
  method ExtractText(content: seq<ContentBlock>) returns (r: Result<string, ExtractError>)
    ensures r == ExpectedText(content)
  {
    if |content| > 1 {
      for i := 0 to |content|
        invariant forall j :: 0 <= j < i ==> content[j].text.None?
      {
        if content[i].text.Some? {
          FirstTextAt(content, i);
          return Ok(content[i].text.value);
        }
      }
      FirstTextNone(content);
    }
    if |content| == 0 {
      return Err(NoContent);
    }
    if content[0].text.None? {
      if |content| == 1 {
        FirstTextNone(content);
      }
      return Err(MissingText);
    }
    return Ok(content[0].text.value);
  }

  /**
   * The cases of the extraction: an empty list fails with `NoContent`; a list
   * in which no block has text fails with `MissingText`; otherwise the answer
   * is the text of the first block that has one, whatever the list's length.
   */
  lemma ExpectedTextCases(content: seq<ContentBlock>)
    ensures ExpectedText(content) == Err(NoContent) <==> |content| == 0
    ensures ExpectedText(content) == Err(MissingText) <==>
            |content| > 0 && forall i :: 0 <= i < |content| ==> content[i].text.None?
    ensures ExpectedText(content).Ok? <==> exists i :: 0 <= i < |content| && content[i].text.Some?
    ensures ExpectedText(content).Ok? ==>
            exists i :: 0 <= i < |content| && content[i].text == Some(ExpectedText(content).value) &&
                        forall j :: 0 <= j < i ==> content[j].text.None?
  {
    if forall i :: 0 <= i < |content| ==> content[i].text.None? {
      FirstTextNone(content);
    } else {
      var i :| 0 <= i < |content| && content[i].text.Some?;
      FirstTextNonNone(content, i);
      FirstTextSome(content);
    }
  }

  /** A block with text makes `FirstText` succeed. */
  lemma {:induction false} FirstTextNonNone(content: seq<ContentBlock>, i: nat)
    requires i < |content| && content[i].text.Some?
    ensures FirstText(content).Some?
    decreases i
  {
    if i > 0 && content[0].text.None? {
      FirstTextNonNone(content[1..], i - 1);
    }
  }

  /** A single block yields its own text; without text it fails with `MissingText`. */
  lemma SingleBlock(b: ContentBlock)
    ensures ExpectedText([b]) == if b.text.Some? then Ok(b.text.value) else Err(MissingText)
  {
    assert [b][1..] == [];
    assert FirstText([b]) == b.text;
  }

  /** Blocks without text in front of a list do not change its first text. */
  lemma {:induction false} FirstTextSkipsTrace(trace: seq<ContentBlock>, rest: seq<ContentBlock>)
    requires forall j :: 0 <= j < |trace| ==> trace[j].text.None?
    ensures FirstText(trace + rest) == FirstText(rest)
    decreases |trace|
  {
    if trace != [] {
      assert (trace + rest)[0] == trace[0] && trace[0].text.None?;
      assert (trace + rest)[1..] == trace[1..] + rest;
      FirstTextSkipsTrace(trace[1..], rest);
    } else {
      assert trace + rest == rest;
    }
  }

  /** Reasoning-trace blocks in front of a non-empty answer list do not change the answer. */
  lemma TraceSkipped(trace: seq<ContentBlock>, answer: seq<ContentBlock>)
    requires forall j :: 0 <= j < |trace| ==> trace[j].text.None?
    requires answer != []
    ensures ExpectedText(trace + answer) == ExpectedText(answer)
  {
    FirstTextSkipsTrace(trace, answer);
  }

  /**
   * `converse`: build the request, send it (the `backend` stands for the
   * Bedrock service) and pick the answer out of the returned content.
   */
  method Converse(backend: ConverseRequest -> seq<ContentBlock>, modelId: string, prompt: string,
                  systemPrompt: string := DefaultSystemPrompt, temperature: real := DefaultTemperature,
                  maxTokens: int := DefaultMaxTokens, reasoningEffort: Option<string> := None,
                  thinkingBudget: Option<int> := None)
    returns (answer: Result<string, ExtractError>)
    ensures answer == ExpectedText(backend(RequestFor(modelId, prompt, systemPrompt, temperature, maxTokens,
                                                      reasoningEffort, thinkingBudget)))
  {
    var request := BuildRequest(modelId, prompt, systemPrompt, temperature, maxTokens, reasoningEffort, thinkingBudget);
    var content := backend(request);
    answer := ExtractText(content);
  }

  // ---------------------------------------------------------------------------
  // Monthly cost estimate
  // ---------------------------------------------------------------------------

  /** `calculate_monthly_cost`: a 30-day month of requests, priced per 1000 tokens. */
  function MonthlyCost(requestsPerDay: int, avgInputTokens: int, avgOutputTokens: int,
                       inputPricePer1k: real, outputPricePer1k: real): real
  {
    var monthlyRequests := requestsPerDay * 30;
    var monthlyInputTokens := (monthlyRequests * avgInputTokens) as real / 1000.0;
    var monthlyOutputTokens := (monthlyRequests * avgOutputTokens) as real / 1000.0;
    monthlyInputTokens * inputPricePer1k + monthlyOutputTokens * outputPricePer1k
  }

  /** The cost of one average request. */
  function RequestCost(avgInputTokens: int, avgOutputTokens: int, inputPricePer1k: real, outputPricePer1k: real): real
  {
    (avgInputTokens as real * inputPricePer1k + avgOutputTokens as real * outputPricePer1k) / 1000.0
  }

  /** The monthly cost is thirty days' worth of requests at the cost of one average request. */
  lemma MonthlyCostFactors(rpd: int, avgIn: int, avgOut: int, inPrice: real, outPrice: real)
    ensures MonthlyCost(rpd, avgIn, avgOut, inPrice, outPrice) ==
            (30 * rpd) as real * RequestCost(avgIn, avgOut, inPrice, outPrice)
  {
  }

  /** No requests cost nothing. */
  lemma MonthlyCostZero(avgIn: int, avgOut: int, inPrice: real, outPrice: real)
    ensures MonthlyCost(0, avgIn, avgOut, inPrice, outPrice) == 0.0
  {
  }

  /** Non-negative usage and prices give a non-negative cost. */
  lemma MonthlyCostNonNegative(rpd: int, avgIn: int, avgOut: int, inPrice: real, outPrice: real)
    requires rpd >= 0 && avgIn >= 0 && avgOut >= 0 && inPrice >= 0.0 && outPrice >= 0.0
    ensures MonthlyCost(rpd, avgIn, avgOut, inPrice, outPrice) >= 0.0
  {
  }

  /** The cost is linear in the number of requests per day. */
  lemma MonthlyCostLinear(a: int, b: int, k: int, avgIn: int, avgOut: int, inPrice: real, outPrice: real)
    ensures MonthlyCost(a + b, avgIn, avgOut, inPrice, outPrice) ==
            MonthlyCost(a, avgIn, avgOut, inPrice, outPrice) + MonthlyCost(b, avgIn, avgOut, inPrice, outPrice)
    ensures MonthlyCost(k * a, avgIn, avgOut, inPrice, outPrice) ==
            k as real * MonthlyCost(a, avgIn, avgOut, inPrice, outPrice)
  {
  }
}
