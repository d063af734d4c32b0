/** The string handling of calculateImageGenerationCost (src/index.js): the
    catalogue key composed from an image request, JavaScript's `split("x")`
    of the size, and the numeric coercion of its two fields. */
module ImageKeys {
  import opened Values

  // ---------------------------------------------------------------------------
  // Key composition

  /** `s.replace("x", "-x-")`: a string pattern replaces its first occurrence
      only. */
  function ReplaceFirstX(s: string): string
  {
    if s == [] then []
    else if s[0] == 'x' then "-x-" + s[1..]
    else [s[0]] + ReplaceFirstX(s[1..])
  }

  /** A size with no "x" is left as it is. */
  lemma {:induction false} ReplaceFirstXWithoutX(s: string)
    requires 'x' !in s
    ensures ReplaceFirstX(s) == s
  {
    if s != [] {
      assert 'x' !in s[1..] by {
        forall i | 0 <= i < |s[1..]| ensures s[1..][i] != 'x' {
          assert s[1..][i] == s[i + 1];
        }
      }
      ReplaceFirstXWithoutX(s[1..]);
    }
  }

  /** Only the first "x" becomes "-x-"; everything after it is untouched,
      later "x"s included. */
  lemma {:induction false} ReplaceFirstXAt(pre: string, post: string)
    requires 'x' !in pre
    ensures ReplaceFirstX(pre + "x" + post) == pre + "-x-" + post
  {
    var s := pre + "x" + post;
    if pre == [] {
      assert s == "x" + post;
      assert s[1..] == post;
    } else {
      assert s[0] == pre[0];
      assert s[1..] == pre[1..] + "x" + post;
      assert 'x' !in pre[1..] by {
        forall i | 0 <= i < |pre[1..]| ensures pre[1..][i] != 'x' {
          assert pre[1..][i] == pre[i + 1];
        }
      }
      ReplaceFirstXAt(pre[1..], post);
      assert [pre[0]] + pre[1..] == pre;
    }
  }

  /** The quality prefix: "hd/" for quality "hd" exactly, nothing otherwise. */
  function QualityPrefix(quality: string): string
  {
    if quality == "hd" then "hd/" else ""
  }

  /** The catalogue key `${sizeKey}/${model}` of an image request. */
  function ImageKey(size: string, quality: string, model: string): string
  {
    QualityPrefix(quality) + ReplaceFirstX(size) + "/" + model
  }

  /** The shape of a composed key for a size with an "x": optional "hd/",
      the width part, "-x-", the rest of the size, "/", the model name. */
  lemma ImageKeyOfSize(w: string, h: string, quality: string, model: string)
    requires 'x' !in w
    ensures ImageKey(w + "x" + h, quality, model)
         == (if quality == "hd" then "hd/" else "") + w + "-x-" + h + "/" + model
  {
    ReplaceFirstXAt(w, h);
  }

  /** The dall-e-3 HD key of the library's own naming. */
  lemma ImageKeyExample()
    ensures ImageKey("1024x1024", "hd", "dall-e-3") == "hd/1024-x-1024/dall-e-3"
  {
    var w, h := "1024", "1024";
    assert "1024x1024" == w + "x" + h;
    ImageKeyOfSize(w, h, "hd", "dall-e-3");
    assert "hd/" + w + "-x-" + h + "/" + "dall-e-3" == "hd/1024-x-1024/dall-e-3";
  }

  // ---------------------------------------------------------------------------
  // Size parsing

  /** `s.split("x")`: the fields between the "x"s, at least one. */
  function SplitX(s: string): (r: seq<string>)
    ensures |r| >= 1
  {
    if s == [] then [""]
    else if s[0] == 'x' then [""] + SplitX(s[1..])
    else
      var rest := SplitX(s[1..]);
      [[s[0]] + rest[0]] + rest[1..]
  }

  lemma {:induction false} SplitXWithoutX(s: string)
    requires 'x' !in s
    ensures SplitX(s) == [s]
  {
    if s != [] {
      assert 'x' !in s[1..] by {
        forall i | 0 <= i < |s[1..]| ensures s[1..][i] != 'x' {
          assert s[1..][i] == s[i + 1];
        }
      }
      SplitXWithoutX(s[1..]);
      assert [s[0]] + s[1..] == s;
    }
  }

  lemma {:induction false} SplitXAt(pre: string, post: string)
    requires 'x' !in pre
    ensures SplitX(pre + "x" + post) == [pre] + SplitX(post)
  {
    var s := pre + "x" + post;
    if pre == [] {
      assert s == "x" + post;
      assert s[1..] == post;
    } else {
      assert s[0] == pre[0];
      assert s[1..] == pre[1..] + "x" + post;
      assert 'x' !in pre[1..] by {
        forall i | 0 <= i < |pre[1..]| ensures pre[1..][i] != 'x' {
          assert pre[1..][i] == pre[i + 1];
        }
      }
      SplitXAt(pre[1..], post);
      assert [pre[0]] + pre[1..] == pre;
    }
  }

  /** "WxH" with no other "x" splits into exactly [W, H]. */
  lemma SplitXTwo(w: string, h: string)
    requires 'x' !in w && 'x' !in h
    ensures SplitX(w + "x" + h) == [w, h]
  {
    SplitXAt(w, h);
    SplitXWithoutX(h);
  }

  predicate IsDigits(s: string)
  {
    forall i :: 0 <= i < |s| ==> '0' <= s[i] <= '9'
  }

  /** The value of a decimal digit string, most significant digit first. */
  function DigitsValue(s: string): nat
    requires IsDigits(s)
  {
    if s == [] then 0
    else 10 * DigitsValue(s[..|s| - 1]) + (s[|s| - 1] as int - '0' as int)
  }

  /** `Number(field)` for the fields the model interprets: a string of decimal
      digits is its value (the empty string is 0); every other string is NaN. */
  function ToNumber(field: string): Num
  {
    if IsDigits(field) then Finite(DigitsValue(field) as real) else NaN
  }

  /** `const [width, height] = size.split("x")`: the first two fields as
      numbers; a missing second field is `undefined`, hence NaN. */
  function SizeDimensions(size: string): (Num, Num)
  {
    var fields := SplitX(size);
    (ToNumber(fields[0]), if |fields| >= 2 then ToNumber(fields[1]) else NaN)
  }

  function DigitChar(d: nat): char
    requires d < 10
  {
    ('0' as int + d) as char
  }

  /** The decimal spelling of a natural number, the inverse of DigitsValue. */
  function Decimal(n: nat): string
  {
    if n < 10 then [DigitChar(n)] else Decimal(n / 10) + [DigitChar(n % 10)]
  }

  lemma {:induction false} DecimalRoundTrip(n: nat)
    ensures IsDigits(Decimal(n))
    ensures DigitsValue(Decimal(n)) == n
    ensures 'x' !in Decimal(n)
  {
    var s := Decimal(n);
    if n >= 10 {
      DecimalRoundTrip(n / 10);
      assert s[..|s| - 1] == Decimal(n / 10);
    }
    assert forall i :: 0 <= i < |s| ==> s[i] != 'x';
  }

  /** A size spelled "<W>x<H>" in decimal parses back to W and H. */
  lemma SizeDimensionsOfDecimal(w: nat, h: nat)
    ensures SizeDimensions(Decimal(w) + "x" + Decimal(h)) == (Finite(w as real), Finite(h as real))
  {
    DecimalRoundTrip(w);
    DecimalRoundTrip(h);
    SplitXTwo(Decimal(w), Decimal(h));
  }

  /** Parsed dimensions are never negative. */
  lemma SizeDimensionsNonNegative(size: string)
    ensures SizeDimensions(size).0.Finite? ==> SizeDimensions(size).0.value >= 0.0
    ensures SizeDimensions(size).1.Finite? ==> SizeDimensions(size).1.value >= 0.0
  {
  }
}
