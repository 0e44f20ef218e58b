/**
  The checkout page: the order message sent to the shop owner over WhatsApp and
  the link that carries it. The message is modelled line by line (OrderLines);
  the text is those lines, each ended by a newline, followed by the closing line
  without one. Number formatting for prices (`toLocaleString`) and the URL
  encoding (`encodeURIComponent`) are library calls whose output depends on the
  locale and on Unicode tables: they are parameters `fmt` and `encode` here.
*/
module Checkout {
  import opened Wrappers
  import opened Catalog
  import Cart
  import Seqs

  /** The four customer fields typed on the checkout form. */
  datatype CustomerInfo = CustomerInfo(name: string, email: string, phone: string, address: string)

  const Banner: string := "🛍️" + " *Nouvelle commande passée sur Ghost Commerce*"
  const CustomerHeading: string := "👤" + " *Informations client:*"
  const DetailsHeading: string := "📦" + " *Détails de la commande:*"
  const Closing: string := "Merci pour votre commande!"
  const SizePrefix: string := "  Taille: "
  const Bullet: string := "• "
  const DefaultOwnerNumber: string := "+221781562041"

  /** `if (item.selectedSize)`: a size is set and is not the empty string. */
  predicate HasSize(l: CartItem)
  {
    l.product.selectedSize.Some? && l.product.selectedSize.value != ""
  }

  function CustomerLines(info: CustomerInfo): seq<string>
  {
    ["Nom: " + info.name, "Email: " + info.email, "Téléphone: " + info.phone, "Adresse: " + info.address]
  }

  /** The banner, the customer block and the heading of the order details. */
  function HeaderLines(info: CustomerInfo): seq<string>
  {
    [Banner, "", CustomerHeading] + CustomerLines(info) + ["", DetailsHeading]
  }

  function NameLine(l: CartItem): string { Bullet + l.product.name }
  function SizeLine(l: CartItem): string requires HasSize(l) { SizePrefix + l.product.selectedSize.value }
  function QuantityLine(l: CartItem): string { "  Quantité: " + IntToString(l.quantity) }
  function UnitPriceLine(l: CartItem, fmt: int -> string): string { "  Prix unitaire: " + fmt(l.product.price) + " FCFA" }
  function LineTotalLine(l: CartItem, fmt: int -> string): string { "  Total: " + fmt(l.product.price * l.quantity) + " FCFA" }
  function ImageLine(l: CartItem): string { "  Image: " + l.product.image }

  function SizeLines(l: CartItem): seq<string>
  {
    if HasSize(l) then [SizeLine(l)] else []
  }

  /** The block of one cart line: a blank line, the name, the size when set, quantity, unit price, line total, image. */
  function BlockLines(l: CartItem, fmt: int -> string): seq<string>
  {
    ["", NameLine(l)] + SizeLines(l) + [QuantityLine(l), UnitPriceLine(l, fmt), LineTotalLine(l, fmt), ImageLine(l)]
  }

  /** The blocks of all cart lines, in cart order. */
  function ItemLines(items: seq<CartItem>, fmt: int -> string): seq<string>
    decreases |items|
  {
    if items == [] then [] else ItemLines(items[..|items| - 1], fmt) + BlockLines(items[|items| - 1], fmt)
  }

  function FooterLines(total: int, fmt: int -> string): seq<string>
  {
    ["", "💰 *Total de la commande: " + fmt(total) + " FCFA*", ""]
  }

  /** Every line of the order message but the closing one. */
  function OrderLines(items: seq<CartItem>, info: CustomerInfo, total: int, fmt: int -> string): seq<string>
  {
    HeaderLines(info) + ItemLines(items, fmt) + FooterLines(total, fmt)
  }

  /** One line of text: its content and the newline that ends it. */
  function Line(x: string): string
  {
    x + "\n"
  }

  /** Lines joined, each followed by a newline. */
  function Unlines(ls: seq<string>): string
  {
    if ls == [] then "" else Line(ls[0]) + Unlines(ls[1..])
  }

  /** The order message before encoding. */
  function OrderMessage(items: seq<CartItem>, info: CustomerInfo, total: int, fmt: int -> string): string
  {
    Unlines(OrderLines(items, info, total, fmt)) + Closing
  }

  lemma {:induction false} UnlinesAppend(a: seq<string>, b: seq<string>)
    ensures Unlines(a + b) == Unlines(a) + Unlines(b)
  {
    if a == [] {
      assert a + b == b;
    } else {
      assert (a + b)[1..] == a[1..] + b;
      UnlinesAppend(a[1..], b);
    }
  }

  lemma UnlinesCons(x: string, r: seq<string>)
    ensures Unlines([x] + r) == Line(x) + Unlines(r)
  {
    assert ([x] + r)[1..] == r;
  }

  /** Appending one line to the text appends it to the list of lines. */
  lemma UnlinesSnoc(ls: seq<string>, x: string)
    ensures Unlines(ls + [x]) == Unlines(ls) + Line(x)
  {
    UnlinesAppend(ls, [x]);
    UnlinesCons(x, []);
    assert [x] + [] == [x];
  }

  /** Appending a line to a text that ends with some lines extends those lines. */
  lemma AppendLine(prefix: string, ls: seq<string>, x: string)
    ensures prefix + Unlines(ls) + Line(x) == prefix + Unlines(ls + [x])
  {
    UnlinesSnoc(ls, x);
  }

  /** Appending the text of some lines to a text that ends with other lines. */
  lemma AppendLines(prefix: string, a: seq<string>, b: seq<string>)
    ensures prefix + Unlines(a) + Unlines(b) == prefix + Unlines(a + b)
  {
    UnlinesAppend(a, b);
  }

  /** One `message += x + "\n"`: the text gains the line `x`. */
  method Emit(message: string, ghost prefix: string, ghost ls: seq<string>, x: string) returns (m: string)
    requires message == prefix + Unlines(ls)
    ensures m == prefix + Unlines(ls + [x])
  {
    AppendLine(prefix, ls, x);
    m := message + Line(x);
  }

  /**
    The body of the `items.forEach` callback: appends the block of one cart line.
    The ghost `lines` records the lines appended so far.
  */
  method AppendBlock(message: string, item: CartItem, fmt: int -> string) returns (m: string)
    ensures m == message + Unlines(BlockLines(item, fmt))
  {
    ghost var head: seq<string> := [];
    m := message;
    assert m == message + Unlines(head);
    m := Emit(m, message, head, "");
    head := head + [""];
    m := Emit(m, message, head, NameLine(item));
    head := head + [NameLine(item)];
    if HasSize(item) {
      m := Emit(m, message, head, SizeLine(item));
      head := head + [SizeLine(item)];
    }
    ghost var mid, tail: seq<string> := m, [];
    assert m == mid + Unlines(tail);
    m := Emit(m, mid, tail, QuantityLine(item));
    tail := tail + [QuantityLine(item)];
    m := Emit(m, mid, tail, UnitPriceLine(item, fmt));
    tail := tail + [UnitPriceLine(item, fmt)];
    m := Emit(m, mid, tail, LineTotalLine(item, fmt));
    tail := tail + [LineTotalLine(item, fmt)];
    m := Emit(m, mid, tail, ImageLine(item));
    tail := tail + [ImageLine(item)];
    AppendLines(message, head, tail);
    assert head + tail == BlockLines(item, fmt);
  }

  /** The opening statements of `formatOrderForWhatsApp`: banner, customer block, details heading. */
  method StartMessage(info: CustomerInfo) returns (m: string)
    ensures m == Unlines(HeaderLines(info))
  {
    ghost var lines: seq<string> := [];
    m := "";
    m := Emit(m, "", lines, Banner);
    lines := lines + [Banner];
    m := Emit(m, "", lines, "");
    lines := lines + [""];
    m := Emit(m, "", lines, CustomerHeading);
    lines := lines + [CustomerHeading];
    m := Emit(m, "", lines, "Nom: " + info.name);
    lines := lines + ["Nom: " + info.name];
    m := Emit(m, "", lines, "Email: " + info.email);
    lines := lines + ["Email: " + info.email];
    m := Emit(m, "", lines, "Téléphone: " + info.phone);
    lines := lines + ["Téléphone: " + info.phone];
    m := Emit(m, "", lines, "Adresse: " + info.address);
    lines := lines + ["Adresse: " + info.address];
    m := Emit(m, "", lines, "");
    lines := lines + [""];
    m := Emit(m, "", lines, DetailsHeading);
    lines := lines + [DetailsHeading];
    assert lines == HeaderLines(info);
  }

  /** The closing statements before the thank-you line: a blank line, the total, a blank line. */
  method AppendFooter(message: string, total: int, fmt: int -> string) returns (m: string)
    ensures m == message + Unlines(FooterLines(total, fmt))
  {
    ghost var lines: seq<string> := [];
    m := message;
    assert m == message + Unlines(lines);
    m := Emit(m, message, lines, "");
    lines := lines + [""];
    m := Emit(m, message, lines, "💰 *Total de la commande: " + fmt(total) + " FCFA*");
    lines := lines + ["💰 *Total de la commande: " + fmt(total) + " FCFA*"];
    m := Emit(m, message, lines, "");
    lines := lines + [""];
    assert lines == FooterLines(total, fmt);
  }

  /** The `items.forEach` loop of `formatOrderForWhatsApp`: one block per cart line, in cart order. */
  method AppendBlocks(message: string, items: seq<CartItem>, fmt: int -> string) returns (m: string)
    ensures m == message + Unlines(ItemLines(items, fmt))
  {
    m := message;
    assert ItemLines(items[..0], fmt) == [];
    for i := 0 to |items|
      invariant m == message + Unlines(ItemLines(items[..i], fmt))
    {
      ghost var done := ItemLines(items[..i], fmt);
      m := AppendBlock(m, items[i], fmt);
      AppendLines(message, done, BlockLines(items[i], fmt));
      Seqs.TakeSnoc(items, i);
      ItemLinesSnocSeq(items[..i], items[i], fmt);
    }
    assert items[..|items|] == items;
  }

  /**
    `formatOrderForWhatsApp`: the header, then one block per cart line, then the
    total and the closing line; the result is the encoding of that text.
  */
  method FormatOrderForWhatsApp(items: seq<CartItem>, info: CustomerInfo, total: int,
                                fmt: int -> string, encode: string -> string) returns (r: string)
    ensures r == encode(OrderMessage(items, info, total, fmt))
  {
    var message := StartMessage(info);
    message := AppendBlocks(message, items, fmt);
    message := AppendFooter(message, total, fmt);
    UnlinesAppend(HeaderLines(info), ItemLines(items, fmt));
    UnlinesAppend(HeaderLines(info) + ItemLines(items, fmt), FooterLines(total, fmt));
    message := message + Closing;
    r := encode(message);
  }

  // ---- What the message says ----

  /** The number of lines that start with the item bullet. */
  function BulletCount(ls: seq<string>): nat
  {
    if ls == [] then 0 else (if Bullet <= ls[0] then 1 else 0) + BulletCount(ls[1..])
  }

  lemma {:induction false} BulletCountAppend(a: seq<string>, b: seq<string>)
    ensures BulletCount(a + b) == BulletCount(a) + BulletCount(b)
  {
    if a == [] {
      assert a + b == b;
    } else {
      assert (a + b)[1..] == a[1..] + b;
      BulletCountAppend(a[1..], b);
    }
  }

  /** A string whose character at `i` differs from the prefix's does not start with it. */
  lemma NotPrefixAt(p: string, x: string, i: nat)
    requires i < |p| && i < |x| && p[i] != x[i]
    ensures !(p <= x)
  {
  }

  lemma {:induction false} NoBullets(ls: seq<string>)
    requires forall i | 0 <= i < |ls| :: !(Bullet <= ls[i])
    ensures BulletCount(ls) == 0
  {
    if ls != [] {
      assert !(Bullet <= ls[0]);
      NoBullets(ls[1..]);
    }
  }

  /** Only the name line of a block starts with the bullet. */
  lemma BlockBullets(l: CartItem, fmt: int -> string)
    ensures BulletCount(BlockLines(l, fmt)) == 1
  {
    var rest := SizeLines(l) + [QuantityLine(l), UnitPriceLine(l, fmt), LineTotalLine(l, fmt), ImageLine(l)];
    NotPrefixAt(Bullet, QuantityLine(l), 0);
    NotPrefixAt(Bullet, UnitPriceLine(l, fmt), 0);
    NotPrefixAt(Bullet, LineTotalLine(l, fmt), 0);
    NotPrefixAt(Bullet, ImageLine(l), 0);
    if HasSize(l) {
      NotPrefixAt(Bullet, SizeLine(l), 0);
    }
    NoBullets(rest);
    BulletCountAppend(["", NameLine(l)], rest);
    assert BlockLines(l, fmt) == ["", NameLine(l)] + rest;
    assert ["", NameLine(l)][1..][1..] == [];
  }

  /** No header or footer line starts with the bullet. */
  lemma FrameBullets(info: CustomerInfo, total: int, fmt: int -> string)
    ensures BulletCount(HeaderLines(info)) == 0
    ensures BulletCount(FooterLines(total, fmt)) == 0
  {
    assert Banner[0] == '🛍';
    assert CustomerHeading[0] == '👤';
    assert DetailsHeading[0] == '📦';
    NotPrefixAt(Bullet, Banner, 0);
    NotPrefixAt(Bullet, CustomerHeading, 0);
    NotPrefixAt(Bullet, "Nom: " + info.name, 0);
    NotPrefixAt(Bullet, "Email: " + info.email, 0);
    NotPrefixAt(Bullet, "Téléphone: " + info.phone, 0);
    NotPrefixAt(Bullet, "Adresse: " + info.address, 0);
    NotPrefixAt(Bullet, DetailsHeading, 0);
    NoBullets(HeaderLines(info));
    var f := FooterLines(total, fmt);
    assert f[1][0] == '💰';
    NotPrefixAt(Bullet, f[1], 0);
    NoBullets(f);
  }

  /** Appending one cart line appends its block. */
  lemma ItemLinesSnocSeq(c: seq<CartItem>, z: CartItem, fmt: int -> string)
    ensures ItemLines(c + [z], fmt) == ItemLines(c, fmt) + BlockLines(z, fmt)
  {
    assert (c + [z])[..|c|] == c;
  }

  /** The blocks of a concatenation are the blocks of each part. */
  lemma {:induction false} ItemLinesAppend(a: seq<CartItem>, b: seq<CartItem>, fmt: int -> string)
    ensures ItemLines(a + b, fmt) == ItemLines(a, fmt) + ItemLines(b, fmt)
    decreases |b|
  {
    if b == [] {
      assert a + b == a;
      assert ItemLines(a, fmt) + [] == ItemLines(a, fmt);
    } else {
      var c, z := b[..|b| - 1], b[|b| - 1];
      assert b == c + [z];
      Seqs.Assoc(a, c, [z]);
      ItemLinesSnocSeq(a + c, z, fmt);
      ItemLinesAppend(a, c, fmt);
      ItemLinesSnocSeq(c, z, fmt);
      Seqs.Assoc(ItemLines(a, fmt), ItemLines(c, fmt), BlockLines(z, fmt));
    }
  }

  /** Item k's block sits between the blocks of the items before it and those after it. */
  lemma BlockPosition(items: seq<CartItem>, k: nat, fmt: int -> string)
    requires k < |items|
    ensures ItemLines(items, fmt)
         == ItemLines(items[..k], fmt) + BlockLines(items[k], fmt) + ItemLines(items[k + 1..], fmt)
  {
    Seqs.SplitAt(items, k);
    BlockBetween(items[..k], items[k], items[k + 1..], fmt);
  }

  lemma BlockBetween(a: seq<CartItem>, x: CartItem, b: seq<CartItem>, fmt: int -> string)
    ensures ItemLines(a + [x] + b, fmt) == ItemLines(a, fmt) + BlockLines(x, fmt) + ItemLines(b, fmt)
  {
    ItemLinesAppend(a + [x], b, fmt);
    ItemLinesSnocSeq(a, x, fmt);
  }

  /** One bulleted block per cart line: the message has exactly |items| bullet lines. */
  lemma {:induction false} ItemBullets(items: seq<CartItem>, fmt: int -> string)
    ensures BulletCount(ItemLines(items, fmt)) == |items|
    decreases |items|
  {
    if items != [] {
      var init := items[..|items| - 1];
      ItemBullets(init, fmt);
      BlockBullets(items[|items| - 1], fmt);
      BulletCountAppend(ItemLines(init, fmt), BlockLines(items[|items| - 1], fmt));
    }
  }

  lemma OrderBullets(items: seq<CartItem>, info: CustomerInfo, total: int, fmt: int -> string)
    ensures BulletCount(OrderLines(items, info, total, fmt)) == |items|
  {
    FrameBullets(info, total, fmt);
    ItemBullets(items, fmt);
    BulletCountAppend(HeaderLines(info), ItemLines(items, fmt));
    BulletCountAppend(HeaderLines(info) + ItemLines(items, fmt), FooterLines(total, fmt));
  }

  /** A block holds a line starting with "  Taille: " exactly when the item has a size. */
  lemma SizeLineIff(l: CartItem, fmt: int -> string)
    ensures (exists j :: 0 <= j < |BlockLines(l, fmt)| && SizePrefix <= BlockLines(l, fmt)[j]) <==> HasSize(l)
  {
    var b := BlockLines(l, fmt);
    if HasSize(l) {
      assert b[2] == SizeLine(l);
    } else {
      assert b == ["", NameLine(l), QuantityLine(l), UnitPriceLine(l, fmt), LineTotalLine(l, fmt), ImageLine(l)];
      NotPrefixAt(SizePrefix, NameLine(l), 0);
      NotPrefixAt(SizePrefix, QuantityLine(l), 2);
      NotPrefixAt(SizePrefix, UnitPriceLine(l, fmt), 2);
      NotPrefixAt(SizePrefix, LineTotalLine(l, fmt), 3);
      NotPrefixAt(SizePrefix, ImageLine(l), 2);
      forall j | 0 <= j < |b|
        ensures !(SizePrefix <= b[j])
      {
      }
    }
  }

  /**
    The lines of a block: blank, name, the size when set, then the quantity, the
    unit price, the line total `price * quantity` and the image, in that order.
  */
  lemma BlockShape(l: CartItem, fmt: int -> string)
    ensures var b := BlockLines(l, fmt);
      && |b| == (if HasSize(l) then 7 else 6)
      && b[0] == "" && b[1] == Bullet + l.product.name
      && b[|b| - 4] == "  Quantité: " + IntToString(l.quantity)
      && b[|b| - 3] == "  Prix unitaire: " + fmt(l.product.price) + " FCFA"
      && b[|b| - 2] == "  Total: " + fmt(Cart.LineTotal(l)) + " FCFA"
      && b[|b| - 1] == "  Image: " + l.product.image
  {
  }

  /** With an empty cart the message is the header followed directly by the total. */
  lemma EmptyCartMessage(info: CustomerInfo, total: int, fmt: int -> string)
    ensures OrderLines([], info, total, fmt) == HeaderLines(info) + FooterLines(total, fmt)
  {
    assert HeaderLines(info) + [] == HeaderLines(info);
  }

  /** The message opens with the banner line and then the customer lines in a fixed order. */
  lemma MessageOpening(items: seq<CartItem>, info: CustomerInfo, total: int, fmt: int -> string)
    ensures Line(Banner) <= OrderMessage(items, info, total, fmt)
    ensures OrderLines(items, info, total, fmt)[..7]
         == [Banner, "", CustomerHeading, "Nom: " + info.name, "Email: " + info.email,
             "Téléphone: " + info.phone, "Adresse: " + info.address]
  {
    var ls := OrderLines(items, info, total, fmt);
    assert ls == [Banner] + ls[1..];
    UnlinesCons(Banner, ls[1..]);
  }

  /** The text of the footer lines. */
  lemma FooterUnlines(total: int, fmt: int -> string)
    ensures Unlines(FooterLines(total, fmt))
         == Line("") + Line("💰 *Total de la commande: " + fmt(total) + " FCFA*") + Line("")
  {
    var t := "💰 *Total de la commande: " + fmt(total) + " FCFA*";
    UnlinesCons("", [t, ""]);
    UnlinesCons(t, [""]);
    UnlinesCons("", []);
    assert [""] + [t, ""] == FooterLines(total, fmt) && [t] + [""] == [t, ""] && [""] + [] == [""];
  }

  /** The message closes with a blank line, the order total, a blank line and the thanks. */
  lemma MessageClosing(items: seq<CartItem>, info: CustomerInfo, total: int, fmt: int -> string)
    ensures OrderMessage(items, info, total, fmt)
         == Unlines(HeaderLines(info) + ItemLines(items, fmt))
          + Line("") + Line("💰 *Total de la commande: " + fmt(total) + " FCFA*") + Line("") + Closing
  {
    var body := HeaderLines(info) + ItemLines(items, fmt);
    var t := "💰 *Total de la commande: " + fmt(total) + " FCFA*";
    UnlinesAppend(body, FooterLines(total, fmt));
    FooterUnlines(total, fmt);
    Seqs.Assoc(Unlines(body), Line("") + Line(t), Line(""));
    Seqs.Assoc(Unlines(body), Line(""), Line(t));
  }

  /**
    Two lines, A at 250000 times 2 and B at 45000 once in size "M": the total is
    545000, the message has two item blocks, only B's has a size line, and the
    total line shows 545000.
  */
  lemma TwoLineOrder(a: Product, b: Product, info: CustomerInfo, fmt: int -> string)
    requires a.price == 250000 && a.selectedSize.None?
    requires b.price == 45000 && b.selectedSize == Some("M")
    ensures var items := [CartItem(a, 2), CartItem(b, 1)];
      && Cart.Total(items) == 545000
      && BulletCount(OrderLines(items, info, Cart.Total(items), fmt)) == 2
      && !HasSize(items[0]) && HasSize(items[1]) && SizeLine(items[1]) == SizePrefix + "M"
      && OrderLines(items, info, Cart.Total(items), fmt)[|OrderLines(items, info, Cart.Total(items), fmt)| - 2]
         == "💰 *Total de la commande: " + fmt(545000) + " FCFA*"
  {
    var items := [CartItem(a, 2), CartItem(b, 1)];
    assert items[1..] == [CartItem(b, 1)] && items[1..][1..] == [];
    assert Cart.Total([CartItem(b, 1)]) == 45000;
    assert Cart.LineTotal(items[0]) == 500000;
    OrderBullets(items, info, 545000, fmt);
  }

  // ---- The WhatsApp link ----

  /** `VITE_OWNER_WHATSAPP_NUMBER || "+221781562041"`: an unset or empty variable falls back. */
  function OwnerNumber(env: Option<string>): (r: string)
    ensures r != ""
    ensures env.Some? && env.value != "" ==> r == env.value
    ensures env.None? || env.value == "" ==> r == DefaultOwnerNumber
  {
    if env.Some? && env.value != "" then env.value else DefaultOwnerNumber
  }

  const UrlBase: string := "https://wa.me/"
  const TextParam: string := "?text="

  function WhatsAppUrl(owner: string, encoded: string): (r: string)
    ensures |r| == |UrlBase| + |owner| + |TextParam| + |encoded|
    ensures UrlBase <= r
    ensures r[|r| - |encoded|..] == encoded
  {
    UrlBase + owner + TextParam + encoded
  }

  /** The text before the first '?' and the text from it on; the whole string when there is none. */
  function SplitQuery(url: string): (string, string)
  {
    if url == [] then ("", "")
    else if url[0] == '?' then ("", url)
    else var (p, q) := SplitQuery(url[1..]); ([url[0]] + p, q)
  }

  lemma {:induction false} SplitQueryAppend(a: string, b: string)
    requires '?' !in a && b != [] && b[0] == '?'
    ensures SplitQuery(a + b) == (a, b)
  {
    if a == [] {
      assert a + b == b;
    } else {
      assert (a + b)[1..] == a[1..] + b;
      assert a[0] in a;
      SplitQueryAppend(a[1..], b);
      assert [a[0]] + a[1..] == a;
    }
  }

  /**
    When the owner number holds no '?', the link splits back into the number and
    the `text` parameter carrying the encoded message, whatever that holds.
  */
  lemma UrlCarriesMessage(owner: string, encoded: string)
    requires '?' !in owner
    ensures SplitQuery(WhatsAppUrl(owner, encoded)) == (UrlBase + owner, TextParam + encoded)
  {
    assert UrlBase + owner + TextParam + encoded == (UrlBase + owner) + (TextParam + encoded);
    SplitQueryAppend(UrlBase + owner, TextParam + encoded);
  }

  /** The default number always parses back. */
  lemma DefaultUrlCarriesMessage(encoded: string)
    ensures SplitQuery(WhatsAppUrl(OwnerNumber(None), encoded)) == (UrlBase + DefaultOwnerNumber, TextParam + encoded)
  {
    UrlCarriesMessage(DefaultOwnerNumber, encoded);
  }

  /**
    `handleWhatsAppSend`: the order total is the sum of the cart lines, the message
    is formatted and encoded, and the link to open is returned (opening a browser
    window is not part of this model).
  */
  method HandleWhatsAppSend(items: seq<CartItem>, info: CustomerInfo, env: Option<string>,
                            fmt: int -> string, encode: string -> string) returns (url: string)
    ensures url == WhatsAppUrl(OwnerNumber(env), encode(OrderMessage(items, info, Cart.Total(items), fmt)))
  {
    var total := Cart.Total(items);
    var whatsappMessage := FormatOrderForWhatsApp(items, info, total, fmt, encode);
    var ownerNumber := OwnerNumber(env);
    url := UrlBase + ownerNumber + TextParam + whatsappMessage;
  }
}
