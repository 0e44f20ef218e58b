/**
  The records the storefront passes around: the product as the shop pages show it,
  the product row as the backend stores it, and a cart line. Prices are whole FCFA
  (the currency has no minor unit), so they are integers.
*/
module Catalog {
  import opened Wrappers

  /**
    A product as the shop pages show it. `sizes` and `collection` are absent (None)
    on products that do not declare them; `selectedSize` is set only on the copy
    handed to the cart. The numeric `rating` is not part of this model.
  */
  datatype Product = Product(
    id: string,
    name: string,
    description: string,
    price: int,
    image: string,
    category: string,
    collection: Option<string>,
    sizes: Option<seq<string>>,
    inStock: bool,
    selectedSize: Option<string>)

  /** A product row as the backend returns it; nullable columns are Options. */
  datatype DbProduct = DbProduct(
    id: string,
    name: string,
    description: Option<string>,
    price: int,
    image_url: Option<string>,
    category: Option<string>,
    in_stock: Option<bool>,
    created_at: string,
    updated_at: string)

  /** A cart line: a snapshot of the product (not a live reference) and a quantity. */
  datatype CartItem = CartItem(product: Product, quantity: int)

  /** A file chosen in a file input; only its identity matters here. */
  datatype ImageFile = ImageFile(name: string)

  /** What an image-upload callback does when it is asked: answer a URL or null, or throw. */
  datatype UploadOutcome = UploadReturns(url: Option<string>) | UploadThrows
  {
    /** The answer a caller that got one reads; a throw has none. */
    function Answer(): Option<string>
    {
      if UploadReturns? then url else None
    }
  }

  /** A nullable text column read with `value || ""`: null and "" both give "". */
  function TextOrEmpty(v: Option<string>): string
  {
    match v
    case Some(s) => s
    case None => ""
  }

  /**
    The image reference kept after an optional upload, `uploaded || current`:
    the uploaded URL when the upload gave a non-empty one, the current reference
    otherwise (a failed upload does not block the save).
  */
  function ChosenImage(current: string, uploaded: Option<string>): (r: string)
    ensures r == current || (uploaded.Some? && r == uploaded.value)
    ensures (uploaded.Some? && uploaded.value != "") <==> (uploaded.Some? && r == uploaded.value && r != "")
    ensures uploaded.None? || uploaded == Some("") ==> r == current
  {
    if uploaded.Some? && uploaded.value != "" then uploaded.value else current
  }

  /** One decimal digit. */
  function DigitChar(d: nat): (c: char)
    requires d < 10
    ensures '0' <= c <= '9'
  {
    ('0' as int + d) as char
  }

  /** The value of a decimal digit. */
  function DigitValue(c: char): int
  {
    c as int - '0' as int
  }

  /** The decimal text of a natural number, without leading zeros. */
  function NatToString(n: nat): (r: string)
    ensures |r| >= 1
    ensures forall i :: 0 <= i < |r| ==> '0' <= r[i] <= '9'
    ensures |r| > 1 ==> r[0] != '0'
  {
    if n < 10 then [DigitChar(n)] else NatToString(n / 10) + [DigitChar(n % 10)]
  }

  /**
    How JavaScript renders a whole number in a template literal or with `toString`:
    decimal, with a leading '-' when negative. JavaScript numbers are doubles, so
    this holds only for magnitudes below 1e21 (larger ones render in exponent form).
  */
  function IntToString(i: int): (r: string)
    ensures |r| >= 1
    ensures r[0] == '-' <==> i < 0
  {
    if i < 0 then "-" + NatToString(-i) else NatToString(i)
  }

  /** The value of a string of decimal digits, most significant first; "" is 0. */
  function ParseNat(s: string): int
  {
    if s == [] then 0 else 10 * ParseNat(s[..|s| - 1]) + DigitValue(s[|s| - 1])
  }

  /** The value of decimal text with an optional leading '-': how `parseFloat` reads such text, exactly up to 2^53. */
  function ParseInt(s: string): int
  {
    if |s| > 0 && s[0] == '-' then -ParseNat(s[1..]) else ParseNat(s)
  }

  /** Reading back the decimal text of a natural number gives the number. */
  lemma {:induction false} NatToStringRoundTrip(n: nat)
    ensures ParseNat(NatToString(n)) == n
  {
    if n >= 10 {
      var s := NatToString(n);
      assert s[..|s| - 1] == NatToString(n / 10);
      NatToStringRoundTrip(n / 10);
    }
  }

  /** Reading back the text `toString` gives a whole number yields the number. */
  lemma IntToStringRoundTrip(i: int)
    ensures ParseInt(IntToString(i)) == i
  {
    if i < 0 {
      assert ("-" + NatToString(-i))[1..] == NatToString(-i);
      NatToStringRoundTrip(-i);
    } else {
      NatToStringRoundTrip(i);
    }
  }
}
