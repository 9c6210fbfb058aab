/** The in-memory inventory (model/Stock.kt). */
module StockModel {

  import opened ProductModel

  /**
   * Sum of price times quantity over a list of products, folded from the
   * first element to the last as Kotlin's `sumOf` does.
   */
  function TotalValue(ps: seq<Product>): real
  {
    if ps == [] then 0.0 else TotalValue(ps[..|ps| - 1]) + Value(ps[|ps| - 1])
  }

  /** Appending one product adds exactly that product's value. */
  lemma TotalValueAppend(ps: seq<Product>, p: Product)
    ensures TotalValue(ps + [p]) == TotalValue(ps) + Value(p)
  {
    assert (ps + [p])[..|ps|] == ps;
  }

  /** The total value is a homomorphism from concatenation to addition. */
  lemma {:induction false} TotalValueConcat(s: seq<Product>, t: seq<Product>)
    ensures TotalValue(s + t) == TotalValue(s) + TotalValue(t)
  {
    if t == [] {
      assert s + t == s;
    } else {
      var init := t[..|t| - 1];
      assert s + t == (s + init) + [t[|t| - 1]];
      TotalValueAppend(s + init, t[|t| - 1]);
      TotalValueConcat(s, init);
      TotalValueAppend(init, t[|t| - 1]);
      assert init + [t[|t| - 1]] == t;
    }
  }

  /** Every split of a list divides its total value into the totals of the two parts. */
  lemma TotalValueSplit(ps: seq<Product>)
    ensures forall k :: 0 <= k <= |ps| ==> TotalValue(ps) == TotalValue(ps[..k]) + TotalValue(ps[k..])
  {
    forall k | 0 <= k <= |ps| ensures TotalValue(ps) == TotalValue(ps[..k]) + TotalValue(ps[k..]) {
      assert ps[..k] + ps[k..] == ps;
      TotalValueConcat(ps[..k], ps[k..]);
    }
  }

  /**
   * The process-wide stock. Kotlin's singleton `object` becomes one instance
   * that is passed to whoever needs it. The list is a value, so the view that
   * `Products` hands out cannot be used to change the stock.
   */
  class Stock {
    var items: seq<Product>

    /** The stock starts empty, with total value zero. */
    constructor ()
      ensures items == []
      ensures CalculateTotalValue() == 0.0
    {
      items := [];
    }

    /** The read-only view of the stored products, in insertion order. */
    function Products(): (r: seq<Product>)
      reads this
      ensures r == items
    {
      items
    }

    /**
     * The sum of price times quantity over the stored products: zero for an
     * empty stock, and the sum of the totals of the two parts wherever the
     * list is split.
     */
    function CalculateTotalValue(): (r: real)
      reads this
      ensures items == [] ==> r == 0.0
      ensures forall k :: 0 <= k <= |items| ==> r == TotalValue(items[..k]) + TotalValue(items[k..])
    {
      TotalValueSplit(items);
      TotalValue(items)
    }

    /**
     * Appends `p` at the end. There is no deduplication: the stock grows by
     * one even when an equal product is already stored, and every earlier
     * product keeps its index.
     */
    method AddProduct(p: Product)
      modifies this
      ensures items == old(items) + [p]
      ensures |items| == |old(items)| + 1 && items[|items| - 1] == p
      ensures forall i :: 0 <= i < |old(items)| ==> items[i] == old(items)[i]
      ensures CalculateTotalValue() == old(CalculateTotalValue()) + Value(p)
    {
      TotalValueAppend(items, p);
      items := items + [p];
    }
  }
}
