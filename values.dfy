/** Values shared by the tokenizer and the pricing functions of tokencost: the
    JavaScript numbers and exceptions the library produces, the records of the
    model catalogue, and the shapes of the inputs callers pass in. */
module Values {

  datatype Option<+T> = None | Some(value: T)

  /** What a call throws. */
  datatype Error =
    /** The library's own `Model <name> not found in model list`. */
    | ModelNotFound(model: string)
    /** A property read or method call on a value that has no such member
        (for instance a field read through `undefined`); `member` names it. */
    | TypeError(member: string)
    /** A free identifier with no binding in scope. */
    | ReferenceError(name: string)

  datatype Result<+T> = Ok(value: T) | Err(error: Error)

  /** A JavaScript number. Exact reals stand for doubles; NaN is what
      arithmetic on `undefined` gives. */
  datatype Num = Finite(value: real) | NaN

  /** JavaScript `*`: NaN is absorbing. */
  function Mul(a: Num, b: Num): (r: Num)
    ensures a.Finite? && b.Finite? ==> r == Finite(a.value * b.value)
    ensures !(a.Finite? && b.Finite?) ==> r == NaN
  {
    if a.Finite? && b.Finite? then Finite(a.value * b.value) else NaN
  }

  /** A catalogue field read as a number: an absent field is `undefined`,
      which arithmetic turns into NaN. */
  function Field(o: Option<real>): (r: Num)
    ensures o.Some? ==> r == Finite(o.value)
    ensures o.None? ==> r == NaN
  {
    match o
    case Some(v) => Finite(v)
    case None => NaN
  }

  /** One entry of the model catalogue, with the fields the engine reads.
      `mode` selects the pricing formula; a record without a mode behaves like
      one whose mode string matches no case. */
  datatype ModelRecord = ModelRecord(
    mode: string,
    inputCostPerToken: Option<real>,
    outputCostPerToken: Option<real>,
    inputCostPerPixel: Option<real>,
    outputCostPerSecond: Option<real>,
    maxTokens: Option<nat>,
    maxInputTokens: Option<nat>)

  /** The read-only catalogue: model key to record. */
  type Catalogue = map<string, ModelRecord>

  predicate NonNegative(o: Option<real>)
  {
    o.Some? ==> o.value >= 0.0
  }

  /** Every price present in the catalogue is non-negative. */
  predicate WellPriced(cat: Catalogue)
  {
    forall k :: k in cat ==>
      && NonNegative(cat[k].inputCostPerToken)
      && NonNegative(cat[k].outputCostPerToken)
      && NonNegative(cat[k].inputCostPerPixel)
      && NonNegative(cat[k].outputCostPerSecond)
  }

  /** One element of an array-valued message content, `{type, text}`. */
  datatype Part = Part(kind: string, text: string)

  /** A message's `content`: a string, an array of parts, or null/absent. */
  datatype Content = Plain(text: string) | Parts(parts: seq<Part>) | Absent

  datatype Message = Message(role: string, content: Content)

  /** An image, already decoded to its pixel dimensions. */
  datatype Image = Image(width: nat, height: nat)

  /** The first argument of the cost calculators, whose shape depends on the
      model's mode: a string, a message list, an image-generation request
      `{size, quality}` (an absent quality is any string other than "hd"),
      or a transcription `{duration}`. */
  datatype Input =
    | Text(text: string)
    | Messages(messages: seq<Message>)
    | ImageRequest(size: string, quality: string)
    | Audio(duration: real)
}
