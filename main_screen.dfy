/**
 * The entry form's "Cadastrar" handler and the statistics screen's total
 * quantity (MainActivity.kt). Screens, navigation and toasts are not modelled;
 * a toast is represented only by the outcome that selects its text.
 */
module MainScreen {

  import opened Wrappers
  import opened ProductModel
  import opened StockModel

  // ---------------------------------------------------------------------------
  // Blank text

  /**
   * The characters the JVM counts as white space for `isBlank`: the ASCII
   * controls TAB..CR and FS..US, the space, and the Unicode space, line and
   * paragraph separators.
   */
  predicate IsWhitespace(c: char)
  {
    ('\U{9}' <= c <= '\U{D}') || ('\U{1C}' <= c <= '\U{20}') ||
    c == '\U{A0}' || c == '\U{1680}' || ('\U{2000}' <= c <= '\U{200A}') ||
    c == '\U{2028}' || c == '\U{2029}' || c == '\U{202F}' || c == '\U{205F}' || c == '\U{3000}'
  }

  /** Empty or made only of white space. */
  predicate IsBlank(s: string)
  {
    forall i :: 0 <= i < |s| ==> IsWhitespace(s[i])
  }

  // ---------------------------------------------------------------------------
  // Outcome of a submission

  /** Which rejection toast is shown. */
  datatype Reason = AllFieldsRequired | QuantityBelowOne | NegativePrice

  datatype Outcome = Accept(product: Product) | Reject(reason: Reason)

  /** The toast text of each outcome (MainActivity.kt:258, 264, 270 and 284); `Submit` reports it. */
  function Message(o: Outcome): string
  {
    match o
    case Accept(_) => "Produto cadastrado com sucesso!"
    case Reject(AllFieldsRequired) => "Todos os campos são obrigatórios e devem ser válidos!"
    case Reject(QuantityBelowOne) => "A quantidade deve ser maior ou igual a 1!"
    case Reject(NegativePrice) => "O preço não pode ser negativo!"
  }

  /** Both texts are non-blank and both numbers parsed. */
  predicate Filled(name: string, category: string, price: Option<real>, quantity: Option<Int32>)
  {
    !IsBlank(name) && !IsBlank(category) && price.Some? && quantity.Some?
  }

  /** The entries the form is meant to admit. */
  predicate EntryAdmissible(name: string, category: string, price: Option<real>, quantity: Option<Int32>)
  {
    Filled(name, category, price, quantity) && quantity.value >= 1 && price.value >= 0.0
  }

  /** A product that the form could have admitted. */
  predicate ProductAdmissible(p: Product)
  {
    !IsBlank(p.name) && !IsBlank(p.category) && p.quantity >= 1 && p.price >= 0.0
  }

  /**
   * The decision of the "Cadastrar" handler on the two texts and the two
   * parsed numbers (`None` when parsing failed). The first test combines the
   * two range violations with AND, so only an entry that breaks both ranges
   * gets the general message; each single violation falls to its own branch.
   */
  function Validate(name: string, category: string, price: Option<real>, quantity: Option<Int32>): (o: Outcome)
    ensures o.Accept? <==> EntryAdmissible(name, category, price, quantity)
    ensures o.Accept? ==>
      o.product == Product(name, category, price.value, quantity.value) && ProductAdmissible(o.product)
    ensures o == Reject(AllFieldsRequired) <==>
      !Filled(name, category, price, quantity) || (quantity.value < 1 && price.value < 0.0)
    ensures o == Reject(QuantityBelowOne) <==>
      Filled(name, category, price, quantity) && quantity.value < 1 && price.value >= 0.0
    ensures o == Reject(NegativePrice) <==>
      Filled(name, category, price, quantity) && quantity.value >= 1 && price.value < 0.0
  {
    if IsBlank(name) || IsBlank(category) || price.None? || quantity.None?
       || (quantity.value < 1 && price.value < 0.0) then
      Reject(AllFieldsRequired)
    else if quantity.value < 1 then
      Reject(QuantityBelowOne)
    else if price.value < 0.0 then
      Reject(NegativePrice)
    else
      Accept(Product(name, category, price.value, quantity.value))
  }

  /** The same handler with the range tests of the first condition joined by OR. */
  function ValidateWithOr(name: string, category: string, price: Option<real>, quantity: Option<Int32>): Outcome
  {
    if IsBlank(name) || IsBlank(category) || price.None? || quantity.None?
       || (quantity.value < 1 || price.value < 0.0) then
      Reject(AllFieldsRequired)
    else if quantity.value < 1 then
      Reject(QuantityBelowOne)
    else if price.value < 0.0 then
      Reject(NegativePrice)
    else
      Accept(Product(name, category, price.value, quantity.value))
  }

  /**
   * AND or OR in the first condition admits exactly the same entries and
   * builds the same product; only the rejection message differs, and with OR
   * the quantity and price messages could never be shown.
   */
  lemma AndOrOnlyChangesMessage(name: string, category: string, price: Option<real>, quantity: Option<Int32>)
    ensures Validate(name, category, price, quantity).Accept? <==>
            ValidateWithOr(name, category, price, quantity).Accept?
    ensures Validate(name, category, price, quantity).Accept? ==>
            Validate(name, category, price, quantity) == ValidateWithOr(name, category, price, quantity)
    ensures ValidateWithOr(name, category, price, quantity) != Reject(QuantityBelowOne)
    ensures ValidateWithOr(name, category, price, quantity) != Reject(NegativePrice)
  {
  }

  /**
   * The record itself checks nothing; a product is one the form could have
   * admitted exactly when entering its four fields is accepted and builds it.
   */
  lemma AdmittedImage(p: Product)
    ensures ProductAdmissible(p) <==> Validate(p.name, p.category, Some(p.price), Some(p.quantity)) == Accept(p)
  {
  }

  /** Boundary entries: a negative price or a zero quantity is refused, price 0 and quantity 1 admitted. */
  lemma BoundaryEntries()
    ensures Validate("A", "X", Some(-1.0), Some(5)) == Reject(NegativePrice)
    ensures Validate("A", "X", Some(3.0), Some(0)) == Reject(QuantityBelowOne)
    ensures Validate("A", "X", Some(-1.0), Some(0)) == Reject(AllFieldsRequired)
    ensures Validate("A", "X", Some(0.0), Some(1)) == Accept(Product("A", "X", 0.0, 1))
  {
    assert !IsBlank("A") by { assert !IsWhitespace("A"[0]); }
    assert !IsBlank("X") by { assert !IsWhitespace("X"[0]); }
  }

  /**
   * The handler: parse the two numeric texts (Kotlin's `toDoubleOrNull` and
   * `toIntOrNull`, given as parameters), decide, and append the product to the
   * stock only on acceptance. A rejection leaves the stock unchanged.
   */
  method Submit(stock: Stock, name: string, category: string, priceText: string, quantityText: string,
                parsePrice: string -> Option<real>, parseQuantity: string -> Option<Int32>)
    returns (o: Outcome, toast: string)
    modifies stock
    ensures o == Validate(name, category, parsePrice(priceText), parseQuantity(quantityText))
    ensures toast == Message(o)
    ensures o.Accept? ==> stock.items == old(stock.items) + [o.product]
    ensures o.Accept? ==> stock.CalculateTotalValue() == old(stock.CalculateTotalValue()) + Value(o.product)
    ensures o.Reject? ==> stock.items == old(stock.items)
    ensures AllAdmissible(old(stock.items)) ==> AllAdmissible(stock.items)
  {
    var priceValue := parsePrice(priceText);
    var quantityValue := parseQuantity(quantityText);
    o := Validate(name, category, priceValue, quantityValue);
    if o.Accept? {
      stock.AddProduct(o.product);
    }
    toast := Message(o);
  }

  // ---------------------------------------------------------------------------
  // Totals over products admitted by the form

  predicate AllAdmissible(ps: seq<Product>)
  {
    forall i :: 0 <= i < |ps| ==> ProductAdmissible(ps[i])
  }

  /** The exact sum of the quantities. */
  function TotalQuantity(ps: seq<Product>): int
  {
    if ps == [] then 0 else TotalQuantity(ps[..|ps| - 1]) + ps[|ps| - 1].quantity
  }

  /**
   * If only the form added products, every product adds a non-negative value
   * and at least one unit, so the total value is non-negative and the total
   * quantity is at least the number of products.
   */
  lemma {:induction false} AdmittedTotals(ps: seq<Product>)
    requires AllAdmissible(ps)
    ensures TotalValue(ps) >= 0.0
    ensures TotalQuantity(ps) >= |ps|
  {
    if ps != [] {
      var init := ps[..|ps| - 1];
      var last := ps[|ps| - 1];
      assert AllAdmissible(init) by {
        forall i | 0 <= i < |init| ensures ProductAdmissible(init[i]) {
          assert init[i] == ps[i];
        }
      }
      AdmittedTotals(init);
      assert ProductAdmissible(last);
      assert Value(last) >= 0.0;
    }
  }

  // ---------------------------------------------------------------------------
  // Kotlin Int arithmetic for the statistics screen

  const Modulus: int := 0x1_0000_0000
  const Half: int := 0x8000_0000

  /** Reduces an integer to the 32-bit two's-complement value congruent to it. */
  function Wrap32(x: int): (r: Int32)
    ensures (x - r) % Modulus == 0
    ensures -Half <= x < Half ==> r == x
  {
    (x + Half) % Modulus - Half
  }

  /** Two integers congruent modulo 2^32 wrap to the same value. */
  lemma Wrap32Congruent(x: int, y: int)
    requires (x - y) % Modulus == 0
    ensures Wrap32(x) == Wrap32(y)
  {
  }

  /** Kotlin's `Int` addition, which wraps around silently. */
  function AddInt(a: Int32, b: Int32): Int32
  {
    Wrap32(a + b)
  }

  /** `sumOf { it.quantity }`: a fold from first to last with wrapping `Int` addition. */
  function QuantitySum(ps: seq<Product>): Int32
  {
    if ps == [] then 0 else AddInt(QuantitySum(ps[..|ps| - 1]), ps[|ps| - 1].quantity)
  }

  /** The total quantity shown on the statistics screen is the exact sum reduced to 32 bits. */
  lemma {:induction false} QuantitySumIsWrappedTotal(ps: seq<Product>)
    ensures QuantitySum(ps) == Wrap32(TotalQuantity(ps))
    ensures -Half <= TotalQuantity(ps) < Half ==> QuantitySum(ps) == TotalQuantity(ps)
  {
    if ps != [] {
      var init := ps[..|ps| - 1];
      var q := ps[|ps| - 1].quantity;
      QuantitySumIsWrappedTotal(init);
      Wrap32Congruent(QuantitySum(init) + q, TotalQuantity(init) + q);
    }
  }

  /** The statistics screen's total quantity for the current stock. */
  function StatisticsTotalQuantity(stock: Stock): (r: Int32)
    reads stock
    ensures r == Wrap32(TotalQuantity(stock.items))
  {
    QuantitySumIsWrappedTotal(stock.Products());
    QuantitySum(stock.Products())
  }
}
