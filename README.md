# tokencost cost engine in Dafny

This project models the cost engine of the tokencost JavaScript library. The
engine has two source files:

- `src/index.js` holds the cost calculators.
- `src/tokenizer.js` holds the unit counters.

A calculator looks the model up in a read-only catalogue and branches on the
record's `mode`. It then multiplies a unit count by a per-unit price:

- text tokens times the input token price, for chat, completion, embedding and
  moderation models;
- image tokens times the same price, for image detection and chat prompts with
  images;
- pixels times the per-pixel price of a key composed from the request, for
  image generation;
- seconds times the per-second price, for transcription.

The model covers these pieces:

- `values.dfy`: the values the code handles.
  - JavaScript numbers are `Num`. Exact reals stand for doubles, and `NaN` is
    what arithmetic on `undefined` gives.
  - Thrown exceptions are `Result.Err`.
  - The catalogue is a map from model key to `ModelRecord`.
  - A prompt can be a string, a message list, an image request or an audio
    object.
- `tokenizer.js` becomes `tokenizer.dfy`:
  - The two `reduce` folds of `getTokenSizeFromPrompt`.
  - The tile formula of `getTokensFromImage`.
  - `getTokensFromRawImages`, both as written and as evidently intended. As
    written it always throws, because `vision` is unbound in it.
  - The byte-pair tokenizer (`getTokenSizeFromString`, that is
    `encode(str).length`) is a parameter, `measure: string -> nat`. Every
    counting function takes it.
- `image_keys.dfy`: the string handling of `calculateImageGenerationCost`.
  - `size.replace("x", "-x-")`, which replaces the first "x" only.
  - The `hd/` prefix.
  - `size.split("x")`.
  - The numeric coercion of the two fields.
- `pricing.dfy`: the calculators and the exported entry points of `index.js`.
  - Each calculator follows the code as written: the same branch order and
    the same failures.
  - The corrected calculators sit next to them (see "## Findings").
- `pricing_properties.dfy`: what each entry point computes, mode by mode, and
  the agreement between the calculators as written and the corrected ones.

The model follows the code, including where it may surprise a caller:

- Completion costs read `input_cost_per_token`.
- An image-generation price is always per pixel.
- A mode with no case returns `undefined` (`Ok(Unsupported)`) rather than an
  error.
- Model lookup is an exact key match, with no alias or family resolution.

## Model

| member | source | states |
|---|---|---|
| Pricing.PromptCost | src/index.js:9-25 | throws the not-found error exactly when the model is absent; returns `undefined` exactly when the record's mode is not chat, completion, embedding, moderations or audio_transcription |
| Pricing.CompletionCost | src/index.js:27-43 | throws the not-found error exactly when the model is absent; returns `undefined` exactly when the mode has no case (image_generation has one, audio_speech does not) |
| Pricing.PromptCostFixed | src/index.js:9-25 | the corrected prompt cost still throws the not-found error exactly when the model is absent, and still returns `undefined` exactly when the mode has no prompt case |
| Pricing.CompletionCostFixed | src/index.js:27-43 | the corrected completion cost throws the not-found error naming the model exactly when the model is absent; the not-found error for a missing image key names the longer composed key, so it is never confused with it; `undefined` exactly when the mode has no completion case |
| Pricing.GetModel | src/index.js:53-55 | null exactly when the key is absent, otherwise the stored record itself |
| Pricing.GetMaxTokens | src/index.js:57-66 | fails with the not-found error exactly when the model is absent; otherwise returns max_tokens and max_input_tokens unchanged, absent fields staying absent |
| Tokenizer.FoldPartsIsSum | src/tokenizer.js:35-38 | the inner fold over an array content adds exactly the token counts of the texts of the parts typed "text", in order |
| Tokenizer.MessageTokensByContent | src/tokenizer.js:33-42 | a message adds the count of its string content, the count of "" when content is null or absent, and the sum over its text parts when content is an array |
| Tokenizer.NonTextPartsAreFree | src/tokenizer.js:34-39 | an array content with no text part (only images, say) adds 0 tokens |
| Tokenizer.FoldMessagesIsSum | src/tokenizer.js:32-46 | the outer fold is its seed plus the plain sum of the messages' contributions |
| Tokenizer.PromptTokensAdditive | src/tokenizer.js:32-46 | the prompt count of [] is 0 and the count is additive over concatenated message lists |
| Tokenizer.TilesIsCeiling | src/tokenizer.js:81-82 | the tile count of a dimension is the ceiling of d / 512 |
| Tokenizer.ImageTokensIsTileSum | src/tokenizer.js:75-84 | an image costs 170 times the sum (not the product) of its two per-dimension tile counts |
| Tokenizer.ImageTokensMonotone | src/tokenizer.js:75-84 | an image no smaller in either dimension never costs fewer tokens |
| Tokenizer.ImageTokensExamples | src/tokenizer.js:75-84 | 512x512 and 1x1 cost 340, 513x512 costs 510, 1536x1536 costs 1020, against 1530 for a tile grid |
| Tokenizer.RawImageTokensAlwaysThrows | src/tokenizer.js:66-73 | as written every batch, including the empty one, throws a ReferenceError for `vision`, so the empty batch does not give the intended 85 |
| Tokenizer.FoldImagesIsSum | src/tokenizer.js:67-72 | the batch fold is its seed plus the sum of the images' tokens |
| Tokenizer.BatchImageTokensIsBasePlusSum | src/tokenizer.js:66-73 | corrected, a batch is 85 base tokens once plus each image's tokens; the empty batch is 85; joining two batches saves one base charge |
| Tokenizer.BatchOfTwo | src/tokenizer.js:66-73 | two images cost 85 plus both images' tile tokens |
| ImageKeys.ReplaceFirstXWithoutX | src/index.js:93 | a size with no "x" is left unchanged by the key's replace |
| ImageKeys.ReplaceFirstXAt | src/index.js:93 | only the first "x" becomes "-x-"; later ones are untouched |
| ImageKeys.ImageKeyOfSize | src/index.js:93-97 | the key of a size W"x"H is an optional "hd/" (for quality "hd" only), W, "-x-", H, "/", the model name |
| ImageKeys.ImageKeyExample | src/index.js:93-97 | size "1024x1024", quality "hd", model "dall-e-3" gives the key "hd/1024-x-1024/dall-e-3" |
| ImageKeys.SplitX | src/index.js:100 | splitting on "x" always yields at least one field |
| ImageKeys.SplitXWithoutX | src/index.js:100 | a string with no "x" splits into itself alone |
| ImageKeys.SplitXAt | src/index.js:100 | splitting at the first "x" gives the part before it followed by the split of the rest |
| ImageKeys.SplitXTwo | src/index.js:100 | W"x"H with no other "x" splits into exactly [W, H] |
| ImageKeys.SizeDimensionsOfDecimal | src/index.js:100-101 | a size written as decimal W"x"H parses back to the numbers W and H |
| ImageKeys.SizeDimensionsNonNegative | src/index.js:100-101 | a parsed width or height is never negative |
| PricingProperties.PerTokenPriced | src/index.js:69-71 | with a present price p, n tokens cost exactly n times p |
| PricingProperties.StringCost | src/index.js:68-72 | for chat, completion, embedding and moderation models a string costs its token count times the input price, as prompt and as completion |
| PricingProperties.StringCostWithoutPrice | src/index.js:68-72 | a record without an input token price gives NaN for a string, not an error |
| PricingProperties.FreeModeration | src/index.js:19-21 | a moderation model with price 0 costs 0 for any string |
| PricingProperties.CompletionIgnoresOutputPrice | src/index.js:33-37 | as written, changing a record's output token price changes no completion cost |
| PricingProperties.CompletionCostFixedUsesOutputPrice | src/index.js:33-37 | corrected, a text completion costs its token count times the output token price |
| PricingProperties.MessagesCost | src/index.js:74-84 | a message list without images costs the prompt's token count times the input price |
| PricingProperties.MessagesWithImagesThrow | src/index.js:79-82 | as written, a message list with any image throws a ReferenceError for `vision` |
| PricingProperties.MessagesWithImagesCostFixed | src/index.js:79-83 | corrected, images add their batch count (85 once plus each image's tiles) to the text tokens before pricing |
| PricingProperties.TranscriptionCost | src/index.js:104-107 | an audio_transcription model prices prompt and completion alike: per-second output price times the input's duration |
| PricingProperties.ImageGenerationPixelCost | src/index.js:92-102 | an image_generation request whose size parses to W and H costs the composed key's per-pixel price times W times H |
| PricingProperties.ImageGenerationCostOfSize | src/index.js:92-102 | the same for a size written as decimal W"x"H |
| PricingProperties.PixelPriceOf | src/index.js:99-101 | the per-pixel price times the parsed width times the parsed height |
| PricingProperties.ImageGenerationAbsentKeyThrows | src/index.js:97-99 | as written, an absent composed key throws a TypeError reading input_cost_per_pixel |
| PricingProperties.ImageGenerationAbsentKeyNotFound | src/index.js:97-99 | corrected, an absent composed key is the not-found error naming that key |
| PricingProperties.UnsupportedModes | src/index.js:15-42 | image_generation has no prompt-cost case, and audio_speech has neither case: both return `undefined` |
| PricingProperties.ImageDetectionThrows | src/index.js:86-90 | as written, image detection throws for every image and model |
| PricingProperties.ImageDetectionCostOf | src/index.js:86-90 | corrected, detection costs 85 plus the image's tile tokens, times the input price |
| PricingProperties.FixedAgreeWhereWrittenReturns | src/index.js:9-43 | wherever the code as written returns a value, the corrected calculators return the same value, except for text completions |
| PricingProperties.CostsNonNegative | src/index.js:68-107 | with non-negative catalogue prices and durations, neither the prompt nor the completion cost, as written or corrected, is negative |
| PricingProperties.DetectionCostsNonNegative | src/index.js:86-90 | with non-negative token prices, image detection, as written or corrected, is never negative |

## Left out

- The byte-pair tokenizer (`encode` of the gpt-tokenizer package) is foreign code. It is the `measure` parameter. The model also assumes that `encode` of a non-string throws (`TypeError("encode")`).
- Base64 decoding and `sizeOf` are not modelled. An image is given by its decoded width and height.
- Doubles are exact reals, so rounding and Infinity are not modelled. NaN is kept, because an absent catalogue field turns a cost into NaN.
- ImageKeys.ToNumber: JavaScript's `Number` coercion is modelled only for strings of decimal digits, and the empty string is 0. Other strings give NaN in the model, whereas JavaScript accepts whitespace, signs, fractions and exponents.
- Objects and inherited properties are not modelled. This covers:
  - catalogue keys such as "constructor";
  - a `null` prompt or completion object;
  - a `null` message, whose `content` read throws;
  - a message content that is neither a string, an array nor null/absent;
  - a part typed "text" with no `text` field. Its count is `encode(undefined)`, which throws under the `encode` assumption above.
  - `opts.images` passed as `null`: the `= []` default does not apply, so `images.length` throws;
  - a `size` that is not a string: `size.replace` throws;
  - a catalogue price stored as JSON `null`: `n * null` is 0 in JavaScript, whereas the model has only present and absent fields (absent gives NaN).
- `countMessageTokens` and `countStringTokens` (src/index.js:45-51) are plain pass-throughs to the counters and are not modelled separately.
- The catalogue update scripts (src/update-models.js, src/update-prices.js, update-prices.js) and the JSON catalogue file are not part of this model. The catalogue is a parameter.
- The code has none of these, so they are not modelled:
  - alias or family model resolution;
  - custom models;
  - `getModels`;
  - `getEmbeddingsDimension`;
  - a flat per-image price;
  - a catalogue refresh.

## Findings

| source | as written | input that shows it | evidently intended | confidence | as-written member | corrected member |
|---|---|---|---|---|---|---|
| src/tokenizer.js:66-73 | the seed of the batch fold reads `vision.baseTokens`, but `vision` is a local of getTokensFromImage (and `sizeOf` is unbound too), so every call throws a ReferenceError | getTokensFromRawImages([]) | seed 85 base tokens, plus each image's tile tokens | high, not executed | Tokenizer.RawImageTokensAlwaysThrows | Tokenizer.BatchImageTokensIsBasePlusSum |
| src/index.js:79-81 | `tokenSize` is declared `const` and then updated with `+=`; its right side already throws, as above | a chat model, any message list, images = [any image] | text tokens plus the image batch's tokens, times the input price | high, not executed | PricingProperties.MessagesWithImagesThrow | PricingProperties.MessagesWithImagesCostFixed |
| src/index.js:86-90 | image detection calls the batch count, which always throws | any image and any model | 85 plus the image's tile tokens, times the input price | high, not executed | PricingProperties.ImageDetectionThrows | PricingProperties.ImageDetectionCostOf |
| src/index.js:97-99 | an absent composed key is dereferenced, so a TypeError is thrown instead of the library's not-found error | an image_generation model and a size whose composed key has no catalogue entry | the not-found error naming the key, as for the other lookups | medium, not executed | PricingProperties.ImageGenerationAbsentKeyThrows | PricingProperties.ImageGenerationAbsentKeyNotFound |
| src/index.js:33-37 | text completions are priced by calculateStringPromptCost, which reads `input_cost_per_token` | a chat model with an input price of 1 and an output price of 2, completion of one token: cost 1, not 2 | completion tokens times the output token price, the field the catalogue records carry for it | low, not executed | PricingProperties.CompletionIgnoresOutputPrice | PricingProperties.CompletionCostFixedUsesOutputPrice |
