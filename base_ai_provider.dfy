/**
 * The value helpers every AI provider inherits: availability, token
 * estimation, prompt validation, error classification and response shaping.
 */
module BaseAiProvider {
  import opened Wrappers
  import opened Strs
  import opened Js

  /** The part of a provider's `config` the helpers read. */
  datatype ProviderConfig = ProviderConfig(apiKey: Option<Value>, maxTokens: Option<int>)

  /** `isAvailable()` / `hasApiKey()`: `Boolean(config.apiKey)`. */
  predicate IsAvailable(c: ProviderConfig)
  {
    Present(c.apiKey)
  }

  /** `Math.ceil(text.length / 3)`. */
  function EstimateTokens(text: string): (n: nat)
    ensures |text| <= 3 * n < |text| + 3
  {
    (|text| + 2) / 3
  }

  /** `config.max_tokens || 4000`. */
  function MaxTokens(c: ProviderConfig): (m: int)
    ensures c.maxTokens.Some? && c.maxTokens.value != 0 ==> m == c.maxTokens.value
    ensures (c.maxTokens.None? || c.maxTokens.value == 0) ==> m == 4000
  {
    if c.maxTokens.Some? && c.maxTokens.value != 0 then c.maxTokens.value else 4000
  }

  /**
   * `validatePrompt(prompt)`: a non-blank string whose estimate stays under
   * 80% of the token budget; `est < 0.8 * max` is `5 * est < 4 * max`.
   */
  function ValidatePrompt(c: ProviderConfig, prompt: Value): (ok: bool)
    ensures ok ==> prompt.Str? && !IsBlank(prompt.s)
    ensures prompt.Str? && !IsBlank(prompt.s) ==> (ok <==> 5 * EstimateTokens(prompt.s) < 4 * MaxTokens(c))
  {
    match prompt
    case Str(s) =>
      if s == "" then false
      else if Trim(s) == "" then false
      else 5 * EstimateTokens(s) < 4 * MaxTokens(c)
    case _ => false
  }

  /**
   * In characters: a valid prompt is shorter than 2.4 tokens per unit of the
   * budget, and a non-blank prompt two characters shorter than that bound is
   * always valid.
   */
  lemma PromptLengthBound(c: ProviderConfig, s: string)
    requires !IsBlank(s)
    ensures ValidatePrompt(c, Str(s)) ==> 5 * |s| < 12 * MaxTokens(c)
    ensures 5 * (|s| + 2) < 12 * MaxTokens(c) ==> ValidatePrompt(c, Str(s))
  {
    var n := EstimateTokens(s);
    assert 15 * n <= 5 * (|s| + 2);
  }

  /** The object handleError builds. */
  datatype ErrorReply = ErrorReply(provider: string, timestamp: string, success: bool, error: string, message: string)

  /**
   * `handleError(error)`: 401, 429 and 402 have fixed codes; anything else is
   * UNKNOWN_ERROR with the error's own message when it has one.
   */
  function HandleError(provider: string, timestamp: string, status: Option<int>, message: Option<string>): (r: ErrorReply)
    ensures !r.success && r.provider == provider && r.timestamp == timestamp
    ensures r.error == "INVALID_API_KEY" <==> status == Some(401)
    ensures r.error == "RATE_LIMIT" <==> status == Some(429)
    ensures r.error == "INSUFFICIENT_CREDITS" <==> status == Some(402)
    ensures r.error == "UNKNOWN_ERROR" <==> status !in {Some(401), Some(429), Some(402)}
    ensures r.error == "UNKNOWN_ERROR" && message.Some? && message.value != "" ==> r.message == message.value
  {
    if status == Some(401) then ErrorReply(provider, timestamp, false, "INVALID_API_KEY", "Неверный API ключ")
    else if status == Some(429) then ErrorReply(provider, timestamp, false, "RATE_LIMIT", "Превышен лимит запросов")
    else if status == Some(402) then ErrorReply(provider, timestamp, false, "INSUFFICIENT_CREDITS", "Недостаточно средств на счету")
    else ErrorReply(provider, timestamp, false, "UNKNOWN_ERROR",
                    if message.Some? && message.value != "" then message.value else "Неизвестная ошибка")
  }

  datatype Reply = Reply(success: bool, provider: string, content: string, metadata: Fields)

  /**
   * `formatResponse(content, metadata)`: the content is trimmed, and the
   * metadata is `{timestamp, tokensUsed, ...metadata}`.
   */
  function FormatResponse(provider: string, timestamp: string, content: string, metadata: Fields): (r: Reply)
    ensures r.success && r.provider == provider && r.content == Trim(content)
  {
    Reply(true, provider, Trim(content),
          Assign([("timestamp", Str(timestamp)), ("tokensUsed", Num(EstimateTokens(content)))], metadata))
  }

  /**
   * `tokensUsed` is estimated from the untrimmed content unless the caller's
   * metadata sets it, and every caller key reaches the result unchanged.
   */
  lemma FormatResponseMetadata(provider: string, timestamp: string, content: string, metadata: Fields, k: string)
    ensures var m := FormatResponse(provider, timestamp, content, metadata).metadata;
      Get(m, "tokensUsed") == (if HasKey(metadata, "tokensUsed") then Get(metadata, "tokensUsed")
                               else Some(Num(EstimateTokens(content))))
      && (HasKey(metadata, k) ==> Get(m, k) == Get(metadata, k))
      && (Get(m, "timestamp") == if HasKey(metadata, "timestamp") then Get(metadata, "timestamp") else Some(Str(timestamp)))
  {
    var base := [("timestamp", Str(timestamp)), ("tokensUsed", Num(EstimateTokens(content)))];
    GetAssign(base, metadata, "tokensUsed");
    GetAssign(base, metadata, "timestamp");
    GetAssign(base, metadata, k);
  }
}
