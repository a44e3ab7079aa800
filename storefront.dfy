/**
 * The index page: the cart state cell, the order text derived from it and
 * the WhatsApp checkout link shown once the cart holds something.
 *
 * The currency formatter (`toLocaleString` with the Argentine peso) and
 * `encodeURIComponent` are foreign code; they enter as the parameters
 * `fmt` and `encode` and nothing is assumed about them.
 */
module Storefront {
  import opened Wrappers
  import opened Products

  /** Fixed destination of the order message. */
  const WhatsAppPrefix: string := "https://wa.me/5491131066937?text="

  /** Header of the closing line of the order text (preceded by a blank line). */
  const TotalHeader: string := "\nTotal: "

  /** The "Completar Pedido (n productos)" button: its target and the number it shows. */
  datatype CheckoutLink = CheckoutLink(href: string, count: nat)

  /** `cart.reduce((total, p) => total + p.price, acc)`: the left fold behind the total. */
  function TotalFrom(acc: real, cart: seq<Product>): real
    decreases |cart|
  {
    if cart == [] then acc else TotalFrom(acc + cart[0].price, cart[1..])
  }

  /** The total shown in the order text: the fold started at 0. */
  function Total(cart: seq<Product>): real
  {
    TotalFrom(0.0, cart)
  }

  /** Independent reference: the sum of the prices, taken from the front. */
  function SumPrices(cart: seq<Product>): real
  {
    if cart == [] then 0.0 else cart[0].price + SumPrices(cart[1..])
  }

  /** The line written for one cart entry. */
  function ItemLine(p: Product, fmt: real -> string): (r: string)
    ensures |r| == |p.title| + |fmt(p.price)| + 6
    ensures r[..2] == "* " && r[2..2 + |p.title|] == p.title && r[|r| - 1] == '\n'
  {
    "* " + p.title + " - " + fmt(p.price) + "\n"
  }

  /** `cart.reduce((message, p) => message.concat(line(p)), message)`: the left fold behind the line block. */
  function LinesFold(message: string, cart: seq<Product>, fmt: real -> string): (r: string)
    ensures |message| <= |r| && r[..|message|] == message
    decreases |cart|
  {
    if cart == [] then message else LinesFold(message + ItemLine(cart[0], fmt), cart[1..], fmt)
  }

  /** The line block of the order text: the fold started at the empty string. */
  function ItemLines(cart: seq<Product>, fmt: real -> string): string
  {
    LinesFold("", cart, fmt)
  }

  /** Independent reference: the lines concatenated from the front. */
  function LinesFrom(cart: seq<Product>, fmt: real -> string): string
  {
    if cart == [] then "" else ItemLine(cart[0], fmt) + LinesFrom(cart[1..], fmt)
  }

  /** The memoised order text: the line block followed by the formatted total. */
  function OrderText(cart: seq<Product>, fmt: real -> string): string
  {
    ItemLines(cart, fmt) + TotalHeader + fmt(Total(cart))
  }

  /** The checkout link, rendered only when `Boolean(cart.length)` holds. */
  function Checkout(cart: seq<Product>, fmt: real -> string, encode: string -> string): (r: Option<CheckoutLink>)
    ensures r.Some? <==> |cart| > 0
    ensures r.Some? ==> r.value.count == |cart|
    ensures r.Some? ==> |WhatsAppPrefix| <= |r.value.href| && r.value.href[..|WhatsAppPrefix|] == WhatsAppPrefix
    ensures r.Some? ==> r.value.href[|WhatsAppPrefix|..] == encode(OrderText(cart, fmt))
  {
    if |cart| > 0 then Some(CheckoutLink(WhatsAppPrefix + encode(OrderText(cart, fmt)), |cart|)) else None
  }

  /** The `cart` state cell of the page: it starts empty and only ever grows at the end. */
  class Cart {
    var items: seq<Product>

    constructor ()
      ensures items == []
    {
      items := [];
    }

    /** "Agregar": `setCart(cart => cart.concat(product))`; a repeated product is a new entry. */
    method Add(p: Product)
      modifies this
      ensures items == old(items) + [p]
      ensures |items| == |old(items)| + 1
    {
      items := items + [p];
    }
  }

  // ---- Total ----

  lemma TotalEmpty()
    ensures Total([]) == 0.0
  {
  }

  /** The fold adds the prices to its starting value. */
  lemma {:induction false} TotalFromIsSum(acc: real, cart: seq<Product>)
    ensures TotalFrom(acc, cart) == acc + SumPrices(cart)
    decreases |cart|
  {
    if cart != [] {
      TotalFromIsSum(acc + cart[0].price, cart[1..]);
    }
  }

  lemma TotalIsSumOfPrices(cart: seq<Product>)
    ensures Total(cart) == SumPrices(cart)
  {
    TotalFromIsSum(0.0, cart);
  }

  lemma {:induction false} SumPricesConcat(a: seq<Product>, b: seq<Product>)
    ensures SumPrices(a + b) == SumPrices(a) + SumPrices(b)
    decreases |a|
  {
    if a == [] {
      assert a + b == b;
    } else {
      assert (a + b)[0] == a[0] && (a + b)[1..] == a[1..] + b;
      SumPricesConcat(a[1..], b);
    }
  }

  /** The total is additive over concatenated carts. */
  lemma TotalConcat(a: seq<Product>, b: seq<Product>)
    ensures Total(a + b) == Total(a) + Total(b)
  {
    TotalIsSumOfPrices(a + b);
    TotalIsSumOfPrices(a);
    TotalIsSumOfPrices(b);
    SumPricesConcat(a, b);
  }

  lemma TotalAppend(cart: seq<Product>, p: Product)
    ensures Total(cart + [p]) == Total(cart) + p.price
  {
    TotalConcat(cart, [p]);
    TotalIsSumOfPrices([p]);
    assert [p][1..] == [];
    assert SumPrices([p]) == p.price + SumPrices([]);
  }

  lemma {:induction false} SumPricesNonNegative(cart: seq<Product>)
    requires forall i :: 0 <= i < |cart| ==> cart[i].price >= 0.0
    ensures SumPrices(cart) >= 0.0
    decreases |cart|
  {
    if cart != [] {
      SumPricesNonNegative(cart[1..]);
    }
  }

  /** With non-negative prices the total is non-negative. */
  lemma TotalNonNegative(cart: seq<Product>)
    requires forall i :: 0 <= i < |cart| ==> cart[i].price >= 0.0
    ensures Total(cart) >= 0.0
  {
    SumPricesNonNegative(cart);
    TotalIsSumOfPrices(cart);
  }

  // ---- Order text ----

  /** The fold appends the lines to its starting message. */
  lemma {:induction false} LinesFoldIsLinesFrom(message: string, cart: seq<Product>, fmt: real -> string)
    ensures LinesFold(message, cart, fmt) == message + LinesFrom(cart, fmt)
    decreases |cart|
  {
    if cart != [] {
      var line := ItemLine(cart[0], fmt);
      LinesFoldIsLinesFrom(message + line, cart[1..], fmt);
      assert (message + line) + LinesFrom(cart[1..], fmt) == message + (line + LinesFrom(cart[1..], fmt));
    }
  }

  lemma ItemLinesAreLinesFrom(cart: seq<Product>, fmt: real -> string)
    ensures ItemLines(cart, fmt) == LinesFrom(cart, fmt)
  {
    LinesFoldIsLinesFrom("", cart, fmt);
    assert "" + LinesFrom(cart, fmt) == LinesFrom(cart, fmt);
  }

  lemma {:induction false} LinesFromConcat(a: seq<Product>, b: seq<Product>, fmt: real -> string)
    ensures LinesFrom(a + b, fmt) == LinesFrom(a, fmt) + LinesFrom(b, fmt)
    decreases |a|
  {
    if a == [] {
      assert a + b == b;
      assert "" + LinesFrom(b, fmt) == LinesFrom(b, fmt);
    } else {
      assert (a + b)[0] == a[0] && (a + b)[1..] == a[1..] + b;
      LinesFromConcat(a[1..], b, fmt);
      var line := ItemLine(a[0], fmt);
      assert line + (LinesFrom(a[1..], fmt) + LinesFrom(b, fmt)) == (line + LinesFrom(a[1..], fmt)) + LinesFrom(b, fmt);
    }
  }

  /** The line block of a concatenated cart is the concatenation of the line blocks. */
  lemma ItemLinesConcat(a: seq<Product>, b: seq<Product>, fmt: real -> string)
    ensures ItemLines(a + b, fmt) == ItemLines(a, fmt) + ItemLines(b, fmt)
  {
    ItemLinesAreLinesFrom(a + b, fmt);
    ItemLinesAreLinesFrom(a, fmt);
    ItemLinesAreLinesFrom(b, fmt);
    LinesFromConcat(a, b, fmt);
  }

  /** Adding an entry extends the line block by exactly that entry's line. */
  lemma ItemLinesAppend(cart: seq<Product>, p: Product, fmt: real -> string)
    ensures ItemLines(cart + [p], fmt) == ItemLines(cart, fmt) + ItemLine(p, fmt)
  {
    ItemLinesConcat(cart, [p], fmt);
    ItemLinesAreLinesFrom([p], fmt);
    assert LinesFrom([p], fmt) == ItemLine(p, fmt) + "";
  }

  /** Entry `i` contributes its line exactly between the lines of the entries before and after it. */
  lemma ItemLineAt(cart: seq<Product>, i: nat, fmt: real -> string)
    requires i < |cart|
    ensures ItemLines(cart, fmt) == ItemLines(cart[..i], fmt) + ItemLine(cart[i], fmt) + ItemLines(cart[i + 1..], fmt)
  {
    var prefix, after := cart[..i], cart[i + 1..];
    var before := prefix + [cart[i]];
    assert cart == before + after;
    var lPrefix, line, lAfter := ItemLines(prefix, fmt), ItemLine(cart[i], fmt), ItemLines(after, fmt);
    ItemLinesAppend(prefix, cart[i], fmt);
    ItemLinesConcat(before, after, fmt);
    assert ItemLines(cart, fmt) == (lPrefix + line) + lAfter;
  }

  lemma OrderTextEmpty(fmt: real -> string)
    ensures OrderText([], fmt) == "\nTotal: " + fmt(0.0)
  {
  }

  /** The order text, read as the in-order concatenation of the entry lines and the total line. */
  lemma OrderTextShape(cart: seq<Product>, fmt: real -> string)
    ensures OrderText(cart, fmt) == LinesFrom(cart, fmt) + "\nTotal: " + fmt(SumPrices(cart))
  {
    ItemLinesAreLinesFrom(cart, fmt);
    TotalIsSumOfPrices(cart);
  }

  /** What one "Agregar" does to the order text. */
  lemma OrderTextAfterAdd(cart: seq<Product>, p: Product, fmt: real -> string)
    ensures OrderText(cart + [p], fmt) == ItemLines(cart, fmt) + ItemLine(p, fmt) + "\nTotal: " + fmt(Total(cart) + p.price)
  {
    var grown := cart + [p];
    var lines, line := ItemLines(cart, fmt), ItemLine(p, fmt);
    var total := Total(cart) + p.price;
    ItemLinesAppend(cart, p, fmt);
    TotalAppend(cart, p);
    calc {
      OrderText(grown, fmt);
    ==
      ItemLines(grown, fmt) + TotalHeader + fmt(Total(grown));
    ==
      (lines + line) + TotalHeader + fmt(total);
    }
  }

  /** After any "Agregar" the checkout link is shown, with a count one higher. */
  lemma CheckoutAfterAdd(cart: seq<Product>, p: Product, fmt: real -> string, encode: string -> string)
    ensures Checkout(cart + [p], fmt, encode).Some?
    ensures Checkout(cart + [p], fmt, encode).value.count == |cart| + 1
    ensures Checkout(cart + [p], fmt, encode).value.href
         == WhatsAppPrefix + encode(ItemLines(cart, fmt) + ItemLine(p, fmt) + "\nTotal: " + fmt(Total(cart) + p.price))
  {
    OrderTextAfterAdd(cart, p, fmt);
  }
}
