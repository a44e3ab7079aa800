/** The product record every view and the cart work on. */
module Products {
  /** One catalog row. The price is a JavaScript number, taken here as an exact real. */
  datatype Product = Product(
    id: string,
    title: string,
    description: string,
    price: real,
    image: string,
    category: string)

  /** `a` is obtained from `b` by dropping elements and keeping the order of the rest. */
  ghost predicate IsSubsequence<T>(a: seq<T>, b: seq<T>)
    decreases |b|
  {
    a == [] || (b != [] && ((a[0] == b[0] && IsSubsequence(a[1..], b[1..])) || IsSubsequence(a, b[1..])))
  }
}
