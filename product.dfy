/** The product record of the inventory (model/Product.kt). */
module ProductModel {

  /** Kotlin's `Int`: a signed 32-bit integer. */
  type Int32 = x: int | -0x8000_0000 <= x < 0x8000_0000

  /**
   * An immutable product. The price is an exact real number instead of a
   * binary floating-point `Double`, so that sums are exact. The constructor
   * checks nothing: admission rules live in the entry form.
   */
  datatype Product = Product(name: string, category: string, price: real, quantity: Int32)

  /** What one product contributes to the stock's total value. */
  function Value(p: Product): real
  {
    p.price * p.quantity as real
  }

  /** `price` added to itself `n` times. */
  function Repeated(price: real, n: nat): real
  {
    if n == 0 then 0.0 else Repeated(price, n - 1) + price
  }

  /** Equality of products is equality of all four fields (a Kotlin `data class`). */
  lemma EqualIffFieldsEqual(a: Product, b: Product)
    ensures a == b <==>
      a.name == b.name && a.category == b.category && a.price == b.price && a.quantity == b.quantity
  {
  }

  /**
   * Since the quantity is a whole number, a product's value is its price
   * added to itself that many times (negated for a negative quantity).
   */
  lemma {:induction false} ValueIsRepeatedPrice(p: Product)
    ensures p.quantity >= 0 ==> Value(p) == Repeated(p.price, p.quantity)
    ensures p.quantity < 0 ==> Value(p) == -Repeated(p.price, -(p.quantity as int))
  {
    if p.quantity >= 0 {
      RepeatedIsProduct(p.price, p.quantity);
    } else {
      RepeatedIsProduct(p.price, -(p.quantity as int));
      assert p.price * p.quantity as real == -(p.price * (-(p.quantity as int)) as real);
    }
  }

  lemma {:induction false} RepeatedIsProduct(price: real, n: nat)
    ensures Repeated(price, n) == price * n as real
  {
    if n > 0 {
      RepeatedIsProduct(price, n - 1);
      assert price * n as real == price * (n - 1) as real + price;
    }
  }
}
