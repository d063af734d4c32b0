/** The cost calculators of src/index.js: a lookup of the model in the
    read-only catalogue, a branch on the record's mode, and a unit count times
    a per-unit price. Each function takes the catalogue `cat` and the foreign
    string tokenizer `measure` as parameters. */
module Pricing {
  import opened Values
  import opened Tokenizer
  import opened ImageKeys

  /** What a calculator returns when it does not throw: a number, or
      `undefined` when the record's mode matches no case of the switch. */
  datatype Cost = Priced(amount: Num) | Unsupported

  /** The result of getMaxTokens; an absent catalogue field stays absent. */
  datatype MaxTokens = MaxTokens(outputTokens: Option<nat>, inputTokens: Option<nat>)

  function Lift(r: Result<Num>): Result<Cost>
  {
    match r
    case Ok(n) => Ok(Priced(n))
    case Err(e) => Err(e)
  }

  /** `tokens * models[model].input_cost_per_token`; reading the price through
      an absent record throws. */
  function PerToken(cat: Catalogue, model: string, tokens: nat): Result<Num>
  {
    if model in cat then Ok(Mul(Finite(tokens as real), Field(cat[model].inputCostPerToken)))
    else Err(TypeError("input_cost_per_token"))
  }

  // ---------------------------------------------------------------------------
  // The per-mode calculators

  /** calculateStringPromptCost: reads the token price, then counts the
      string. The tokenizer is only modelled on strings; any other input is
      taken to throw from inside it. */
  function StringPromptCost(cat: Catalogue, measure: string -> nat, str: Input, model: string): Result<Num>
  {
    if model !in cat then Err(TypeError("input_cost_per_token"))
    else if !str.Text? then Err(TypeError("encode"))
    else PerToken(cat, model, measure(str.text))
  }

  /** calculateChatPromptCost as written. A string goes to
      calculateStringPromptCost; a message list is counted by
      getTokenSizeFromPrompt. With a non-empty `images` the statement
      `tokenSize += getTokensFromRawImages(images)` first evaluates its right
      side, which throws; were it to return, assigning to the `const` would
      throw a TypeError in its turn. */
  function ChatPromptCost(cat: Catalogue, measure: string -> nat, prompt: Input, model: string,
                          images: seq<Image>): Result<Num>
  {
    if prompt.Text? then StringPromptCost(cat, measure, prompt, model)
    else if model !in cat then Err(TypeError("input_cost_per_token"))
    else if !prompt.Messages? then Err(TypeError("reduce"))
    else if images != [] then
      match RawImageTokens(images)
      case Err(e) => Err(e)
      case Ok(_) => Err(TypeError("tokenSize"))
    else PerToken(cat, model, PromptTokens(measure, prompt.messages))
  }

  /** calculateChatPromptCost as evidently intended: the image batch's tokens
      are added to the text tokens when `images` is non-empty. */
  function ChatPromptCostFixed(cat: Catalogue, measure: string -> nat, prompt: Input, model: string,
                               images: seq<Image>): Result<Num>
  {
    if prompt.Text? then StringPromptCost(cat, measure, prompt, model)
    else if model !in cat then Err(TypeError("input_cost_per_token"))
    else if !prompt.Messages? then Err(TypeError("reduce"))
    else
      var imageTokens := if images != [] then BatchImageTokens(images) else 0;
      PerToken(cat, model, PromptTokens(measure, prompt.messages) + imageTokens)
  }

  /** The completion count priced per output token, a field the catalogue
      records carry but the code as written never reads. */
  function StringCompletionCost(cat: Catalogue, measure: string -> nat, str: Input, model: string): Result<Num>
  {
    if model !in cat then Err(TypeError("output_cost_per_token"))
    else if !str.Text? then Err(TypeError("encode"))
    else Ok(Mul(Finite(measure(str.text) as real), Field(cat[model].outputCostPerToken)))
  }

  /** calculateSpeechToTextModel: price per second times the `duration` of the
      input object; an input without one gives `undefined`, hence NaN. */
  function SpeechToTextCost(cat: Catalogue, input: Input, model: string): Result<Num>
  {
    if model !in cat then Err(TypeError("output_cost_per_second"))
    else
      var duration := if input.Audio? then Finite(input.duration) else NaN;
      Ok(Mul(Field(cat[model].outputCostPerSecond), duration))
  }

  /** calculateImageGenerationCost as written: compose the key, read its
      per-pixel price (through `undefined` when the key is absent, which
      throws a TypeError rather than the library's not-found error), and
      multiply by the width and height parsed from `size`. An input without a
      `size` string throws at `size.replace`. */
  function ImageGenerationCost(cat: Catalogue, request: Input, model: string): Result<Num>
  {
    if !request.ImageRequest? then Err(TypeError("replace"))
    else
      var key := ImageKey(request.size, request.quality, model);
      if key !in cat then Err(TypeError("input_cost_per_pixel"))
      else Ok(PixelPrice(cat[key], request.size))
  }

  /** The shared arithmetic `costPerPixel * width * height`. */
  function PixelPrice(rec: ModelRecord, size: string): Num
  {
    var dims := SizeDimensions(size);
    Mul(Mul(Field(rec.inputCostPerPixel), dims.0), dims.1)
  }

  /** calculateImageGenerationCost with the absent key reported as the
      library's own not-found error. */
  function ImageGenerationCostChecked(cat: Catalogue, request: Input, model: string): Result<Num>
  {
    if !request.ImageRequest? then Err(TypeError("replace"))
    else
      var key := ImageKey(request.size, request.quality, model);
      if key !in cat then Err(ModelNotFound(key))
      else Ok(PixelPrice(cat[key], request.size))
  }

  /** calculateImageDetectionCost as written: getTokensFromRawImages([image])
      throws before the price is read. */
  function ImageDetectionCost(cat: Catalogue, image: Image, model: string): Result<Num>
  {
    match RawImageTokens([image])
    case Err(e) => Err(e)
    case Ok(tokens) => PerToken(cat, model, tokens)
  }

  /** calculateImageDetectionCost as evidently intended: the one-image batch's
      tokens times the model's token price. */
  function ImageDetectionCostFixed(cat: Catalogue, image: Image, model: string): Result<Num>
  {
    PerToken(cat, model, BatchImageTokens([image]))
  }

  // ---------------------------------------------------------------------------
  // Modes

  predicate IsChatMode(mode: string)
  {
    mode == "chat" || mode == "completion"
  }

  predicate IsStringMode(mode: string)
  {
    mode == "embedding" || mode == "moderations"
  }

  /** The modes calculatePromptCost has a case for. */
  predicate HasPromptCase(mode: string)
  {
    IsChatMode(mode) || IsStringMode(mode) || mode == "audio_transcription"
  }

  /** The modes calculateCompletionCost has a case for. */
  predicate HasCompletionCase(mode: string)
  {
    IsChatMode(mode) || IsStringMode(mode) || mode == "image_generation" || mode == "audio_transcription"
  }

  // ---------------------------------------------------------------------------
  // The exported entry points

  /** calculatePromptCost. An absent model throws the not-found error, and
      that error arises from nothing else; a mode with no case gives
      `undefined` and nothing else does. */
  function PromptCost(cat: Catalogue, measure: string -> nat, prompt: Input, model: string,
                      images: seq<Image>): (r: Result<Cost>)
    ensures r == Err(ModelNotFound(model)) <==> model !in cat
    ensures r == Ok(Unsupported) <==> model in cat && !HasPromptCase(cat[model].mode)
  {
    if model !in cat then Err(ModelNotFound(model))
    else
      var mode := cat[model].mode;
      if IsChatMode(mode) then Lift(ChatPromptCost(cat, measure, prompt, model, images))
      else if IsStringMode(mode) then Lift(StringPromptCost(cat, measure, prompt, model))
      else if mode == "audio_transcription" then Lift(SpeechToTextCost(cat, prompt, model))
      else Ok(Unsupported)
  }

  /** calculateCompletionCost. Chat, completion, embedding and moderation
      models all go through calculateStringPromptCost, which reads the INPUT
      token price. */
  function CompletionCost(cat: Catalogue, measure: string -> nat, completion: Input, model: string): (r: Result<Cost>)
    ensures r == Err(ModelNotFound(model)) <==> model !in cat
    ensures r == Ok(Unsupported) <==> model in cat && !HasCompletionCase(cat[model].mode)
  {
    if model !in cat then Err(ModelNotFound(model))
    else
      var mode := cat[model].mode;
      if IsChatMode(mode) || IsStringMode(mode) then Lift(StringPromptCost(cat, measure, completion, model))
      else if mode == "image_generation" then Lift(ImageGenerationCost(cat, completion, model))
      else if mode == "audio_transcription" then Lift(SpeechToTextCost(cat, completion, model))
      else Ok(Unsupported)
  }

  /** calculatePromptCost with the chat calculator corrected. */
  function PromptCostFixed(cat: Catalogue, measure: string -> nat, prompt: Input, model: string,
                           images: seq<Image>): (r: Result<Cost>)
    ensures r == Err(ModelNotFound(model)) <==> model !in cat
    ensures r == Ok(Unsupported) <==> model in cat && !HasPromptCase(cat[model].mode)
  {
    if model !in cat then Err(ModelNotFound(model))
    else
      var mode := cat[model].mode;
      if IsChatMode(mode) then Lift(ChatPromptCostFixed(cat, measure, prompt, model, images))
      else if IsStringMode(mode) then Lift(StringPromptCost(cat, measure, prompt, model))
      else if mode == "audio_transcription" then Lift(SpeechToTextCost(cat, prompt, model))
      else Ok(Unsupported)
  }

  /** calculateCompletionCost corrected: text completions are priced per
      output token, and an absent image-generation key is the not-found
      error. */
  function CompletionCostFixed(cat: Catalogue, measure: string -> nat, completion: Input, model: string): (r: Result<Cost>)
    ensures r == Err(ModelNotFound(model)) <==> model !in cat
    ensures r == Ok(Unsupported) <==> model in cat && !HasCompletionCase(cat[model].mode)
  {
    if model !in cat then Err(ModelNotFound(model))
    else
      var mode := cat[model].mode;
      if IsChatMode(mode) || IsStringMode(mode) then Lift(StringCompletionCost(cat, measure, completion, model))
      else if mode == "image_generation" then
        // The composed key is longer than the model name, so its not-found
        // error never reads as the model's own.
        assert completion.ImageRequest? ==> |ImageKey(completion.size, completion.quality, model)| > |model|;
        Lift(ImageGenerationCostChecked(cat, completion, model))
      else if mode == "audio_transcription" then Lift(SpeechToTextCost(cat, completion, model))
      else Ok(Unsupported)
  }

  /** getModel: the record, or null. */
  function GetModel(cat: Catalogue, model: string): (r: Option<ModelRecord>)
    ensures r.None? <==> model !in cat
    ensures r.Some? ==> model in cat && r.value == cat[model]
  {
    if model in cat then Some(cat[model]) else None
  }

  /** getMaxTokens: the record's max_tokens and max_input_tokens, unchanged,
      or the not-found error. */
  function GetMaxTokens(cat: Catalogue, model: string): (r: Result<MaxTokens>)
    ensures r.Err? <==> model !in cat
    ensures r.Err? ==> r.error == ModelNotFound(model)
    ensures r.Ok? ==> r.value.outputTokens == cat[model].maxTokens
    ensures r.Ok? ==> r.value.inputTokens == cat[model].maxInputTokens
  {
    if model !in cat then Err(ModelNotFound(model))
    else Ok(MaxTokens(cat[model].maxTokens, cat[model].maxInputTokens))
  }
}
