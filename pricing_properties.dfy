/** What the calculators of src/index.js compute, mode by mode, stated against
    the unit counts of the Tokenizer module and the key composition of the
    ImageKeys module. */
module PricingProperties {
  import opened Values
  import opened Tokenizer
  import opened ImageKeys
  import opened Pricing

  /** The product of a token count and a present token price. */
  lemma PerTokenPriced(cat: Catalogue, model: string, n: nat, p: real)
    requires model in cat && cat[model].inputCostPerToken == Some(p)
    ensures PerToken(cat, model, n) == Ok(Finite(n as real * p))
  {
    assert PerToken(cat, model, n) == Ok(Mul(Finite(n as real), Field(cat[model].inputCostPerToken)));
    assert Mul(Finite(n as real), Field(cat[model].inputCostPerToken)) == Finite(n as real * p);
  }

  // ---------------------------------------------------------------------------
  // Text

  /** A chat, completion, embedding or moderation model prices a string prompt
      at its token count times the input token price, and a completion string
      the same way: the output price is never read. */
  lemma StringCost(cat: Catalogue, measure: string -> nat, s: string, model: string,
                   images: seq<Image>, p: real)
    requires model in cat && (IsChatMode(cat[model].mode) || IsStringMode(cat[model].mode))
    requires cat[model].inputCostPerToken == Some(p)
    ensures PromptCost(cat, measure, Text(s), model, images) == Ok(Priced(Finite(measure(s) as real * p)))
    ensures CompletionCost(cat, measure, Text(s), model) == Ok(Priced(Finite(measure(s) as real * p)))
  {
    PerTokenPriced(cat, model, measure(s), p);
    assert StringPromptCost(cat, measure, Text(s), model) == Ok(Finite(measure(s) as real * p));
  }

  /** A record without an input token price makes string costs NaN, not an
      error. */
  lemma StringCostWithoutPrice(cat: Catalogue, measure: string -> nat, s: string, model: string,
                               images: seq<Image>)
    requires model in cat && (IsChatMode(cat[model].mode) || IsStringMode(cat[model].mode))
    requires cat[model].inputCostPerToken == None
    ensures PromptCost(cat, measure, Text(s), model, images) == Ok(Priced(NaN))
    ensures CompletionCost(cat, measure, Text(s), model) == Ok(Priced(NaN))
  {
  }

  /** The "should be free" moderation call: a zero price costs zero whatever
      the prompt. */
  lemma FreeModeration(cat: Catalogue, measure: string -> nat, s: string, model: string)
    requires model in cat && cat[model].mode == "moderations"
    requires cat[model].inputCostPerToken == Some(0.0)
    ensures PromptCost(cat, measure, Text(s), model, []) == Ok(Priced(Finite(0.0)))
  {
  }

  /** The completion cost of every text mode is independent of the record's
      output token price. */
  lemma CompletionIgnoresOutputPrice(cat: Catalogue, measure: string -> nat, completion: Input,
                                     model: string, out: Option<real>)
    requires model in cat
    ensures CompletionCost(cat[model := cat[model].(outputCostPerToken := out)], measure, completion, model)
         == CompletionCost(cat, measure, completion, model)
  {
    var cat' := cat[model := cat[model].(outputCostPerToken := out)];
    if completion.ImageRequest? {
      var key := ImageKey(completion.size, completion.quality, model);
      assert key in cat' <==> key in cat;
      if key in cat {
        assert cat'[key].inputCostPerPixel == cat[key].inputCostPerPixel;
      }
    }
  }

  /** Corrected, a text completion costs its token count times the OUTPUT
      token price, and the input price no longer matters. */
  lemma CompletionCostFixedUsesOutputPrice(cat: Catalogue, measure: string -> nat, s: string,
                                           model: string, q: real)
    requires model in cat && (IsChatMode(cat[model].mode) || IsStringMode(cat[model].mode))
    requires cat[model].outputCostPerToken == Some(q)
    ensures CompletionCostFixed(cat, measure, Text(s), model) == Ok(Priced(Finite(measure(s) as real * q)))
  {
    assert Mul(Finite(measure(s) as real), Field(cat[model].outputCostPerToken)) == Finite(measure(s) as real * q);
    assert StringCompletionCost(cat, measure, Text(s), model) == Ok(Finite(measure(s) as real * q));
  }

  // ---------------------------------------------------------------------------
  // Message lists

  /** A chat or completion model prices a message list without images at the
      prompt's token count times the input token price. */
  lemma MessagesCost(cat: Catalogue, measure: string -> nat, msgs: seq<Message>, model: string, p: real)
    requires model in cat && IsChatMode(cat[model].mode)
    requires cat[model].inputCostPerToken == Some(p)
    ensures PromptCost(cat, measure, Messages(msgs), model, [])
         == Ok(Priced(Finite(PromptTokens(measure, msgs) as real * p)))
  {
    PerTokenPriced(cat, model, PromptTokens(measure, msgs), p);
    assert ChatPromptCost(cat, measure, Messages(msgs), model, [])
        == Ok(Finite(PromptTokens(measure, msgs) as real * p));
  }

  /** As written, a message list with at least one image always throws: the
      image count fails on the unbound `vision` before the sum is made. */
  lemma MessagesWithImagesThrow(cat: Catalogue, measure: string -> nat, msgs: seq<Message>,
                                model: string, images: seq<Image>)
    requires model in cat && IsChatMode(cat[model].mode)
    requires images != []
    ensures PromptCost(cat, measure, Messages(msgs), model, images) == Err(ReferenceError("vision"))
  {
  }

  /** Corrected, the images add their batch count, 85 base tokens once plus
      each image's tile tokens, to the text tokens. */
  lemma MessagesWithImagesCostFixed(cat: Catalogue, measure: string -> nat, msgs: seq<Message>,
                                    model: string, images: seq<Image>, p: real)
    requires model in cat && IsChatMode(cat[model].mode)
    requires cat[model].inputCostPerToken == Some(p)
    requires images != []
    ensures PromptCostFixed(cat, measure, Messages(msgs), model, images)
         == Ok(Priced(Finite((PromptTokens(measure, msgs) + BatchImageTokens(images)) as real * p)))
    ensures BatchImageTokens(images) == BaseTokens + SumImageTokens(images)
  {
    BatchImageTokensIsBasePlusSum(images, []);
    var n := PromptTokens(measure, msgs) + BatchImageTokens(images);
    PerTokenPriced(cat, model, n, p);
    assert ChatPromptCostFixed(cat, measure, Messages(msgs), model, images) == Ok(Finite(n as real * p));
    var w := (PromptTokens(measure, msgs) + BatchImageTokens(images)) as real * p;
    assert n as real * p == w;
    assert Priced(Finite(n as real * p)) == Priced(Finite(w));
  }

  // ---------------------------------------------------------------------------
  // Transcription

  /** An audio_transcription model prices prompt and completion alike: the
      per-second output price times the input's duration. */
  lemma TranscriptionCost(cat: Catalogue, measure: string -> nat, duration: real, model: string,
                          images: seq<Image>, p: real)
    requires model in cat && cat[model].mode == "audio_transcription"
    requires cat[model].outputCostPerSecond == Some(p)
    ensures PromptCost(cat, measure, Audio(duration), model, images) == Ok(Priced(Finite(p * duration)))
    ensures CompletionCost(cat, measure, Audio(duration), model) == Ok(Priced(Finite(p * duration)))
  {
    assert Mul(Field(cat[model].outputCostPerSecond), Finite(duration)) == Finite(p * duration);
    assert SpeechToTextCost(cat, Audio(duration), model) == Ok(Finite(p * duration));
  }

  // ---------------------------------------------------------------------------
  // Image generation

  /** An image_generation model prices a request whose size parses to W and
      H at the per-pixel price of the composed key's record times W times H. */
  lemma ImageGenerationPixelCost(cat: Catalogue, measure: string -> nat, size: string, quality: string,
                            model: string, w: real, h: real, p: real)
    requires model in cat && cat[model].mode == "image_generation"
    requires ImageKey(size, quality, model) in cat
    requires cat[ImageKey(size, quality, model)].inputCostPerPixel == Some(p)
    requires SizeDimensions(size) == (Finite(w), Finite(h))
    ensures CompletionCost(cat, measure, ImageRequest(size, quality), model) == Ok(Priced(Finite(p * w * h)))
  {
    var key := ImageKey(size, quality, model);
    PixelPriceOf(cat[key], size, w, h, p);
    assert ImageGenerationCost(cat, ImageRequest(size, quality), model) == Ok(Finite(p * w * h));
  }

  /** In particular for a size spelled "<W>x<H>" in decimal. */
  lemma ImageGenerationCostOfSize(cat: Catalogue, measure: string -> nat, w: nat, h: nat,
                                  quality: string, model: string, p: real)
    requires model in cat && cat[model].mode == "image_generation"
    requires ImageKey(Decimal(w) + "x" + Decimal(h), quality, model) in cat
    requires cat[ImageKey(Decimal(w) + "x" + Decimal(h), quality, model)].inputCostPerPixel == Some(p)
    ensures CompletionCost(cat, measure, ImageRequest(Decimal(w) + "x" + Decimal(h), quality), model)
         == Ok(Priced(Finite(p * (w as real) * (h as real))))
  {
    SizeDimensionsOfDecimal(w, h);
    ImageGenerationPixelCost(cat, measure, Decimal(w) + "x" + Decimal(h), quality, model, w as real, h as real, p);
  }

  /** `costPerPixel * width * height` once the size has parsed. */
  lemma PixelPriceOf(rec: ModelRecord, size: string, w: real, h: real, p: real)
    requires rec.inputCostPerPixel == Some(p)
    requires SizeDimensions(size) == (Finite(w), Finite(h))
    ensures PixelPrice(rec, size) == Finite(p * w * h)
  {
    var pw := p * w;
    assert Mul(Field(rec.inputCostPerPixel), Finite(w)) == Finite(pw);
    assert Mul(Finite(pw), Finite(h)) == Finite(pw * h);
  }

  /** As written, an absent composed key throws a TypeError from reading the
      per-pixel price through `undefined`. */
  lemma ImageGenerationAbsentKeyThrows(cat: Catalogue, measure: string -> nat, size: string,
                                       quality: string, model: string)
    requires model in cat && cat[model].mode == "image_generation"
    requires ImageKey(size, quality, model) !in cat
    ensures CompletionCost(cat, measure, ImageRequest(size, quality), model)
         == Err(TypeError("input_cost_per_pixel"))
  {
  }

  /** Corrected, an absent composed key is the not-found error naming the
      key. */
  lemma ImageGenerationAbsentKeyNotFound(cat: Catalogue, measure: string -> nat, size: string,
                                         quality: string, model: string)
    requires model in cat && cat[model].mode == "image_generation"
    requires ImageKey(size, quality, model) !in cat
    ensures CompletionCostFixed(cat, measure, ImageRequest(size, quality), model)
         == Err(ModelNotFound(ImageKey(size, quality, model)))
  {
  }

  /** Image generation has no prompt-cost case, and audio_speech has neither
      case. */
  lemma UnsupportedModes(cat: Catalogue, measure: string -> nat, input: Input, model: string,
                         images: seq<Image>)
    requires model in cat
    requires cat[model].mode == "image_generation" || cat[model].mode == "audio_speech"
    ensures PromptCost(cat, measure, input, model, images) == Ok(Unsupported)
    ensures cat[model].mode == "audio_speech" ==> CompletionCost(cat, measure, input, model) == Ok(Unsupported)
  {
  }

  // ---------------------------------------------------------------------------
  // Image detection

  /** As written calculateImageDetectionCost throws for every image and
      model, before the model is even looked up. */
  lemma ImageDetectionThrows(cat: Catalogue, image: Image, model: string)
    ensures ImageDetectionCost(cat, image, model) == Err(ReferenceError("vision"))
  {
  }

  /** Corrected it is the one-image batch, 85 plus the image's tile tokens,
      times the token price. */
  lemma ImageDetectionCostOf(cat: Catalogue, image: Image, model: string, p: real)
    requires model in cat && cat[model].inputCostPerToken == Some(p)
    ensures ImageDetectionCostFixed(cat, image, model)
         == Ok(Finite((BaseTokens + ImageTokens(image)) as real * p))
  {
    var b := BatchImageTokens([image]);
    PerTokenPriced(cat, model, b, p);
    assert b == BaseTokens + ImageTokens(image) by {
      BatchImageTokensIsBasePlusSum([image], []);
      assert [image][1..] == [];
    }
    var v := b as real * p;
    var w := (BaseTokens + ImageTokens(image)) as real * p;
    assert v == w;
    assert Ok(Finite(v)) == Ok(Finite(w));
  }

  // ---------------------------------------------------------------------------
  // Corrections and signs

  /** The corrected calculators change nothing where the code as written
      returns, except that text completions read the output price. */
  lemma FixedAgreeWhereWrittenReturns(cat: Catalogue, measure: string -> nat, input: Input,
                                      model: string, images: seq<Image>)
    ensures PromptCost(cat, measure, input, model, images).Ok? ==>
      PromptCostFixed(cat, measure, input, model, images) == PromptCost(cat, measure, input, model, images)
    ensures CompletionCost(cat, measure, input, model).Ok? &&
            !(IsChatMode(cat[model].mode) || IsStringMode(cat[model].mode)) ==>
      CompletionCostFixed(cat, measure, input, model) == CompletionCost(cat, measure, input, model)
  {
  }

  lemma MulNonNegative(a: Num, b: Num)
    requires a.Finite? ==> a.value >= 0.0
    requires b.Finite? ==> b.value >= 0.0
    ensures Mul(a, b).Finite? ==> Mul(a, b).value >= 0.0
  {
    if a.Finite? && b.Finite? {
      assert a.value * b.value >= 0.0;
    }
  }

  predicate NonNegativeCost(r: Result<Cost>)
  {
    r.Ok? && r.value.Priced? && r.value.amount.Finite? ==> r.value.amount.value >= 0.0
  }

  /** With non-negative prices and durations, neither the prompt nor the
      completion cost, as written or corrected, is negative. */
  lemma CostsNonNegative(cat: Catalogue, measure: string -> nat, input: Input, model: string,
                         images: seq<Image>)
    requires WellPriced(cat)
    requires input.Audio? ==> input.duration >= 0.0
    ensures NonNegativeCost(PromptCost(cat, measure, input, model, images))
    ensures NonNegativeCost(PromptCostFixed(cat, measure, input, model, images))
    ensures NonNegativeCost(CompletionCost(cat, measure, input, model))
    ensures NonNegativeCost(CompletionCostFixed(cat, measure, input, model))
  {
    if model in cat {
      var rec := cat[model];
      forall n: nat ensures PerToken(cat, model, n).Ok? && PerToken(cat, model, n).value.Finite? ==>
                              PerToken(cat, model, n).value.value >= 0.0 {
        MulNonNegative(Finite(n as real), Field(rec.inputCostPerToken));
      }
      if input.ImageRequest? {
        var key := ImageKey(input.size, input.quality, model);
        if key in cat {
          var price := Field(cat[key].inputCostPerPixel);
          var dims := SizeDimensions(input.size);
          SizeDimensionsNonNegative(input.size);
          MulNonNegative(price, dims.0);
          MulNonNegative(Mul(price, dims.0), dims.1);
        }
      }
      if input.Text? {
        MulNonNegative(Finite(measure(input.text) as real), Field(rec.outputCostPerToken));
      }
      var duration := if input.Audio? then Finite(input.duration) else NaN;
      MulNonNegative(Field(rec.outputCostPerSecond), duration);
    }
  }

  /** With non-negative token prices, image detection, as written or
      corrected, never costs a negative amount. */
  lemma DetectionCostsNonNegative(cat: Catalogue, image: Image, model: string)
    requires WellPriced(cat)
    ensures NonNegativeCost(Lift(ImageDetectionCost(cat, image, model)))
    ensures NonNegativeCost(Lift(ImageDetectionCostFixed(cat, image, model)))
  {
    if model in cat {
      MulNonNegative(Finite(BatchImageTokens([image]) as real), Field(cat[model].inputCostPerToken));
    }
  }
}
