/** The token counter and truncator: a class-level, lazily loaded tiktoken encoding. */
module Tokenizer {
  import opened Wrappers
  import Text

  /** A tiktoken encoding: its name, `encode` and `decode`. */
  datatype Encoding = Encoding(name: string, encode: string -> seq<nat>, decode: seq<nat> -> string)

  /** `tiktoken.get_encoding(name)`: the encoding, or the exception loading it raised. */
  type Loader = string -> Result<Encoding>

  const ModelEncoding := "cl100k_base"
  const FallbackEncoding := "p50k_base"
  const TruncationMarker := "\n...(content truncated by Tokenizer)..."

  /** Load the preferred encoding, falling back to the older one when that raises. */
  function LoadWithFallback(loader: Loader): (r: Result<Encoding>)
    ensures loader(ModelEncoding).Ok? ==> r == loader(ModelEncoding)
    ensures loader(ModelEncoding).Err? ==> r == loader(FallbackEncoding)
  {
    match loader(ModelEncoding)
      case Ok(e) => Ok(e)
      case Err(_) => loader(FallbackEncoding)
  }

  /** `truncate` once the encoding is known. */
  function TruncateWith(enc: Encoding, text: string, maxTokens: nat): (r: string)
    ensures |enc.encode(text)| <= maxTokens ==> r == text
    ensures |enc.encode(text)| > maxTokens ==> Text.EndsWith(r, TruncationMarker)
  {
    var tokens := enc.encode(text);
    if |tokens| <= maxTokens then text
    else enc.decode(tokens[..maxTokens]) + TruncationMarker
  }

  /** For an encoding whose decoding inverts encoding and maps concatenated token runs to
      concatenated text, a truncated text is a prefix of the original followed by the marker. */
  lemma {:induction false} TruncatedIsPrefix(enc: Encoding, text: string, maxTokens: nat)
    requires forall t :: enc.decode(enc.encode(t)) == t
    requires forall a, b :: enc.decode(a + b) == enc.decode(a) + enc.decode(b)
    ensures var r := TruncateWith(enc, text, maxTokens);
      r == text
      || (Text.EndsWith(r, TruncationMarker) && Text.StartsWith(text, r[..|r| - |TruncationMarker|]))
  {
    var tokens := enc.encode(text);
    if |tokens| > maxTokens {
      var r := TruncateWith(enc, text, maxTokens);
      var head := enc.decode(tokens[..maxTokens]);
      assert tokens == tokens[..maxTokens] + tokens[maxTokens..];
      assert text == head + enc.decode(tokens[maxTokens..]);
      assert r[..|r| - |TruncationMarker|] == head;
    }
  }

  /** The class with its cached `_encoding`; one object stands for the class. */
  class Tokenizer {
    const loader: Loader
    var encoding: Option<Encoding>

    constructor (loader: Loader)
      ensures this.loader == loader && encoding.None?
    {
      this.loader := loader;
      encoding := None;
    }

    /** `get_encoding`: loads once and caches; a failed load caches nothing and raises. */
    method GetEncoding() returns (r: Result<Encoding>)
      modifies this
      ensures old(encoding).Some? ==> r == Ok(old(encoding).value) && encoding == old(encoding)
      ensures old(encoding).None? ==> r == LoadWithFallback(loader)
      ensures old(encoding).None? ==> encoding == if r.Ok? then Some(r.value) else None
    {
      if encoding.Some? {
        r := Ok(encoding.value);
      } else {
        r := LoadWithFallback(loader);
        if r.Ok? {
          encoding := Some(r.value);
        }
      }
    }

    /** `count`: the number of tokens of `text`. */
    method Count(text: string) returns (r: Result<nat>)
      modifies this
      ensures r.Ok? <==> encoding.Some?
      ensures r.Ok? ==> r.value == |encoding.value.encode(text)|
      ensures old(encoding).Some? ==> encoding == old(encoding)
      ensures old(encoding).None? ==> (encoding.Some? <==> LoadWithFallback(loader).Ok?)
    {
      var e := GetEncoding();
      match e
        case Err(msg) => r := Err(msg);
        case Ok(enc) => r := Ok(|enc.encode(text)|);
    }

    /** `truncate`: the text itself within the limit, else its first `maxTokens` tokens and the marker. */
    method Truncate(text: string, maxTokens: nat) returns (r: Result<string>)
      modifies this
      ensures r.Ok? <==> encoding.Some?
      ensures r.Ok? ==> r.value == TruncateWith(encoding.value, text, maxTokens)
      ensures old(encoding).Some? ==> encoding == old(encoding)
      ensures old(encoding).None? ==> (encoding.Some? <==> LoadWithFallback(loader).Ok?)
    {
      var e := GetEncoding();
      match e
        case Err(msg) => r := Err(msg);
        case Ok(enc) => r := Ok(TruncateWith(enc, text, maxTokens));
    }
  }
}
