// resource.Quantity is library code: all the model uses is that printing is canonical.
module Quantities {
  import opened Basics

  // ParseQuantity, and Quantity.String on the (opaque) parsed quantities.
  datatype RawQuantities = RawQuantities(parse: string -> Option<int>, show: int -> string)

  // What is printed parses again, to a quantity that prints the same.
  ghost predicate Stable(q: RawQuantities, text: string) {
    q.parse(text).Some? ==>
      var printed := q.show(q.parse(text).value);
      q.parse(printed).Some? && q.show(q.parse(printed).value) == printed
  }

  ghost predicate CanonicalPrinting(q: RawQuantities) {
    forall text :: Stable(q, text)
  }

  type QuantityLibrary = q: RawQuantities | CanonicalPrinting(q)
      witness RawQuantities((text: string) => None, (n: int) => "")
}
