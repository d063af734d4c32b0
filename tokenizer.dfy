/** Unit counting (src/tokenizer.js): text tokens of a chat prompt, tile-based
    tokens of an image, and the token total of a batch of images. The
    byte-pair tokenizer itself is foreign code; every function here takes it as
    the parameter `measure`, the token count of one string. */
module Tokenizer {
  import opened Values

  const TileSize: nat := 512
  const BaseTokens: nat := 85
  const TokensPerTile: nat := 170

  // ---------------------------------------------------------------------------
  // Text tokens of a message list

  /** Tokens of one element of an array content: only parts typed "text"
      count. */
  function PartTokens(measure: string -> nat, c: Part): nat
  {
    if c.kind == "text" then measure(c.text) else 0
  }

  /** The inner `reduce` over an array content, from the running total `o`. */
  function FoldParts(measure: string -> nat, o: nat, parts: seq<Part>): nat
    decreases |parts|
  {
    if parts == [] then o
    else FoldParts(measure, o + PartTokens(measure, parts[0]), parts[1..])
  }

  /** What one message adds to the prompt total: the fold over its parts when
      the content is an array, otherwise the count of the content string, with
      null or absent content counted as the empty string. */
  function MessageTokens(measure: string -> nat, p: Message): nat
  {
    match p.content
    case Parts(parts) => FoldParts(measure, 0, parts)
    case Plain(s) => measure(s)
    case Absent => measure("")
  }

  /** The outer `reduce` over the messages, from the running total `out`. */
  function FoldMessages(measure: string -> nat, out: nat, prompts: seq<Message>): nat
    decreases |prompts|
  {
    if prompts == [] then out
    else FoldMessages(measure, out + MessageTokens(measure, prompts[0]), prompts[1..])
  }

  /** getTokenSizeFromPrompt: the fold seeded with 0. */
  function PromptTokens(measure: string -> nat, prompts: seq<Message>): nat
  {
    FoldMessages(measure, 0, prompts)
  }

  /** Reference definitions: the texts of the parts typed "text", in order, and
      plain sums written without an accumulator. */
  function TextsOf(parts: seq<Part>): seq<string>
  {
    if parts == [] then []
    else (if parts[0].kind == "text" then [parts[0].text] else []) + TextsOf(parts[1..])
  }

  function SumMeasure(measure: string -> nat, texts: seq<string>): nat
  {
    if texts == [] then 0 else measure(texts[0]) + SumMeasure(measure, texts[1..])
  }

  function SumMessages(measure: string -> nat, prompts: seq<Message>): nat
  {
    if prompts == [] then 0
    else MessageTokens(measure, prompts[0]) + SumMessages(measure, prompts[1..])
  }

  /** The parts fold adds exactly the counts of the text parts' texts. */
  lemma {:induction false} FoldPartsIsSum(measure: string -> nat, o: nat, parts: seq<Part>)
    ensures FoldParts(measure, o, parts) == o + SumMeasure(measure, TextsOf(parts))
    decreases |parts|
  {
    if parts != [] {
      FoldPartsIsSum(measure, o + PartTokens(measure, parts[0]), parts[1..]);
      if parts[0].kind == "text" {
        assert TextsOf(parts) == [parts[0].text] + TextsOf(parts[1..]);
        assert ([parts[0].text] + TextsOf(parts[1..]))[1..] == TextsOf(parts[1..]);
      } else {
        assert TextsOf(parts) == TextsOf(parts[1..]);
      }
    }
  }

  /** A message's contribution by content kind: a string counts as itself,
      null or absent content as "", and an array as the sum over the texts of
      its "text" parts alone (images and other parts add nothing). */
  lemma MessageTokensByContent(measure: string -> nat, p: Message)
    ensures p.content.Plain? ==> MessageTokens(measure, p) == measure(p.content.text)
    ensures p.content.Absent? ==> MessageTokens(measure, p) == measure("")
    ensures p.content.Parts? ==>
      MessageTokens(measure, p) == SumMeasure(measure, TextsOf(p.content.parts))
  {
    if p.content.Parts? {
      FoldPartsIsSum(measure, 0, p.content.parts);
    }
  }

  /** An array content made only of non-text parts (images, say) adds 0. */
  lemma {:induction false} NonTextPartsAreFree(measure: string -> nat, parts: seq<Part>)
    requires forall i :: 0 <= i < |parts| ==> parts[i].kind != "text"
    ensures MessageTokens(measure, Message("user", Parts(parts))) == 0
  {
    NoTexts(parts);
    FoldPartsIsSum(measure, 0, parts);
  }

  lemma {:induction false} NoTexts(parts: seq<Part>)
    requires forall i :: 0 <= i < |parts| ==> parts[i].kind != "text"
    ensures TextsOf(parts) == []
    decreases |parts|
  {
    if parts != [] {
      NoTexts(parts[1..]);
    }
  }

  /** The messages fold is its seed plus the plain sum. */
  lemma {:induction false} FoldMessagesIsSum(measure: string -> nat, out: nat, prompts: seq<Message>)
    ensures FoldMessages(measure, out, prompts) == out + SumMessages(measure, prompts)
    decreases |prompts|
  {
    if prompts != [] {
      FoldMessagesIsSum(measure, out + MessageTokens(measure, prompts[0]), prompts[1..]);
    }
  }

  lemma {:induction false} SumMessagesAppend(measure: string -> nat, a: seq<Message>, b: seq<Message>)
    ensures SumMessages(measure, a + b) == SumMessages(measure, a) + SumMessages(measure, b)
    decreases |a|
  {
    if a == [] {
      assert a + b == b;
    } else {
      assert (a + b)[1..] == a[1..] + b;
      SumMessagesAppend(measure, a[1..], b);
    }
  }

  /** The prompt count starts at 0 and is additive over concatenation of
      message lists. */
  lemma PromptTokensAdditive(measure: string -> nat, a: seq<Message>, b: seq<Message>)
    ensures PromptTokens(measure, []) == 0
    ensures PromptTokens(measure, a + b) == PromptTokens(measure, a) + PromptTokens(measure, b)
  {
    FoldMessagesIsSum(measure, 0, a + b);
    FoldMessagesIsSum(measure, 0, a);
    FoldMessagesIsSum(measure, 0, b);
    SumMessagesAppend(measure, a, b);
  }

  // ---------------------------------------------------------------------------
  // Image tokens

  /** Math.ceil(d / 512) for a non-negative pixel count. */
  function Tiles(d: nat): nat
  {
    (d + TileSize - 1) / TileSize
  }

  /** getTokensFromImage: 170 tokens per tile, the tile counts of the two
      dimensions added, not multiplied. */
  function ImageTokens(img: Image): nat
  {
    TokensPerTile * (Tiles(img.width) + Tiles(img.height))
  }

  /** Tiles(d) is the ceiling of d / 512: the least t with d <= 512 * t. */
  lemma TilesIsCeiling(d: nat)
    ensures d <= TileSize * Tiles(d) < d + TileSize
  {
  }

  /** Independent statement of the formula: for any per-dimension tile counts
      that are the ceilings of width / 512 and height / 512, the image costs
      170 times their sum. */
  lemma ImageTokensIsTileSum(img: Image, tw: nat, th: nat)
    requires img.width <= TileSize * tw < img.width + TileSize
    requires img.height <= TileSize * th < img.height + TileSize
    ensures ImageTokens(img) == TokensPerTile * (tw + th)
  {
    TilesIsCeiling(img.width);
    TilesIsCeiling(img.height);
  }

  lemma TilesMonotone(d: nat, e: nat)
    requires d <= e
    ensures Tiles(d) <= Tiles(e)
  {
    TilesIsCeiling(d);
    TilesIsCeiling(e);
  }

  /** A larger image never costs fewer tokens. */
  lemma ImageTokensMonotone(a: Image, b: Image)
    requires a.width <= b.width && a.height <= b.height
    ensures ImageTokens(a) <= ImageTokens(b)
  {
    TilesMonotone(a.width, b.width);
    TilesMonotone(a.height, b.height);
  }

  /** Rounding up: any dimension from 1 to 512 is one tile, and one more pixel
      makes a second; a 1536 x 1536 image is 6 tiles here, not the 9 of a
      grid. */
  lemma ImageTokensExamples()
    ensures ImageTokens(Image(512, 512)) == 340
    ensures ImageTokens(Image(1, 1)) == 340
    ensures ImageTokens(Image(513, 512)) == 510
    ensures ImageTokens(Image(1536, 1536)) == 1020
    ensures TokensPerTile * Tiles(1536) * Tiles(1536) == 1530
  {
  }

  // ---------------------------------------------------------------------------
  // Image batches

  /** The `reduce` callback over a batch: add each image's tokens to `out`. */
  function FoldImages(out: nat, images: seq<Image>): nat
    decreases |images|
  {
    if images == [] then out else FoldImages(out + ImageTokens(images[0]), images[1..])
  }

  /** getTokensFromRawImages as written. The seed of its `reduce` reads
      `vision.baseTokens`, but `vision` is a local of getTokensFromImage and is
      not bound in this scope (nor is `sizeOf`, used by the callback), so the
      seed expression throws before a single image is visited, for every
      batch including the empty one. */
  function RawImageTokens(images: seq<Image>): Result<nat>
  {
    Err(ReferenceError("vision"))
  }

  lemma RawImageTokensAlwaysThrows(images: seq<Image>)
    ensures RawImageTokens(images) == Err(ReferenceError("vision"))
    ensures RawImageTokens([]).Err?
    ensures RawImageTokens([]) != Ok(BatchImageTokens([]))
  {
  }

  /** The batch count the code evidently intends: the same fold seeded with
      the 85 base tokens. */
  function BatchImageTokens(images: seq<Image>): nat
  {
    FoldImages(BaseTokens, images)
  }

  function SumImageTokens(images: seq<Image>): nat
  {
    if images == [] then 0 else ImageTokens(images[0]) + SumImageTokens(images[1..])
  }

  lemma {:induction false} FoldImagesIsSum(out: nat, images: seq<Image>)
    ensures FoldImages(out, images) == out + SumImageTokens(images)
    decreases |images|
  {
    if images != [] {
      FoldImagesIsSum(out + ImageTokens(images[0]), images[1..]);
    }
  }

  lemma {:induction false} SumImageTokensAppend(a: seq<Image>, b: seq<Image>)
    ensures SumImageTokens(a + b) == SumImageTokens(a) + SumImageTokens(b)
    decreases |a|
  {
    if a == [] {
      assert a + b == b;
    } else {
      assert (a + b)[1..] == a[1..] + b;
      SumImageTokensAppend(a[1..], b);
    }
  }

  /** A batch costs 85 base tokens once plus each image's tile tokens: the
      empty batch is 85, and joining two batches saves one base charge. */
  lemma BatchImageTokensIsBasePlusSum(a: seq<Image>, b: seq<Image>)
    ensures BatchImageTokens(a) == BaseTokens + SumImageTokens(a)
    ensures BatchImageTokens([]) == BaseTokens
    ensures BatchImageTokens(a + b) + BaseTokens == BatchImageTokens(a) + BatchImageTokens(b)
  {
    FoldImagesIsSum(BaseTokens, a);
    FoldImagesIsSum(BaseTokens, b);
    FoldImagesIsSum(BaseTokens, a + b);
    SumImageTokensAppend(a, b);
  }

  /** Two images: the base is counted once. */
  lemma BatchOfTwo(x: Image, y: Image)
    ensures BatchImageTokens([x, y]) == BaseTokens + ImageTokens(x) + ImageTokens(y)
  {
    FoldImagesIsSum(BaseTokens, [x, y]);
    assert [x, y][1..] == [y];
    assert [y][1..] == [];
    assert SumImageTokens([y]) == ImageTokens(y);
    assert SumImageTokens([x, y]) == ImageTokens(x) + SumImageTokens([y]);
  }
}
