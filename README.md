# Product inventory: a Dafny model

This project models the data-handling core of a small Android inventory app.
A form collects a product's name, category, price and quantity. The
"Cadastrar" (register) button decides whether the entry is admitted. Admitted
products are appended to a process-wide `Stock` list. The list screen shows
the stock's total value, and the statistics screen also shows its total
quantity.

- `product.dfy` (module `ProductModel`): the immutable `Product` record.
  Kotlin's `Int` quantity becomes the 32-bit subset type `Int32`. The
  `Double` price becomes an exact `real`.
- `stock.dfy` (module `StockModel`): the class `Stock`. It holds the product
  list as a `seq` field. `AddProduct` is the only method that changes it.
  `Products` and `CalculateTotalValue` are pure reads: `Products` returns a
  snapshot value rather than the live list (see "Left out"). The total value is `TotalValue`, a fold from the first product to
  the last, as Kotlin's `sumOf` computes it.
- `main_screen.dfy` (module `MainScreen`): the submit rule. `Validate` is the
  pure decision and `Submit` is the handler that changes the stock. The file
  also holds the statistics total quantity. There `sumOf { it.quantity }` adds
  Kotlin `Int`s, which wrap around at 32 bits, so `QuantitySum` folds with a
  wrapping addition, and a lemma relates it to the exact sum.
- `wrappers.dfy` (module `Wrappers`): `Option`, standing for a nullable parse
  result.

The Kotlin `object Stock` is a global singleton. Here it is one `Stock`
instance that `Submit` receives as a parameter.

The first test of the handler (MainActivity.kt:255) joins `quantity < 1` and
`price < 0` with AND. One might read this AND as a slip for OR. The model
follows the code as written. `MainScreen.AndOrOnlyChangesMessage` proves that
both versions admit exactly the same entries and build the same product. With
OR, the quantity and price messages (lines 261-272) could never be shown. So
the AND changes only which message an entry that breaks both ranges gets.

## Model

| member | source | states |
|---|---|---|
| `ProductModel.EqualIffFieldsEqual` | app/src/main/java/com/example/productinventory/model/Product.kt:3-8 | two products are equal exactly when name, category, price and quantity are all equal (data-class equality) |
| `ProductModel.ValueIsRepeatedPrice` | app/src/main/java/com/example/productinventory/model/Product.kt:6-7 | since the quantity is a whole number, price times quantity is the price added to itself quantity times, negated when the quantity is negative |
| `StockModel.Stock.constructor` | app/src/main/java/com/example/productinventory/model/Stock.kt:5 | the stock starts as the empty list, with total value 0 |
| `StockModel.Stock.AddProduct` | app/src/main/java/com/example/productinventory/model/Stock.kt:10-12 | the new list is the old list with the product appended; it is one longer even if an equal product is already stored; every earlier product keeps its index; the total value grows by exactly price times quantity of the added product |
| `StockModel.Stock.Products` | app/src/main/java/com/example/productinventory/model/Stock.kt:7-8 | returns exactly the stored list, in insertion order; being a function it changes nothing |
| `StockModel.Stock.CalculateTotalValue` | app/src/main/java/com/example/productinventory/model/Stock.kt:14-16 | the sum of price times quantity over the stored products: 0 for an empty stock, and the sum of the two parts' totals wherever the list is split |
| `StockModel.TotalValueSplit` | app/src/main/java/com/example/productinventory/model/Stock.kt:14-16 | every split of a list divides its total value into the totals of the two parts |
| `StockModel.TotalValueAppend` | app/src/main/java/com/example/productinventory/model/Stock.kt:14-16 | the total value of a list with one product appended is the old total plus that product's price times quantity |
| `StockModel.TotalValueConcat` | app/src/main/java/com/example/productinventory/model/Stock.kt:14-16 | the total value of a concatenation is the sum of the two totals |
| `MainScreen.Validate` | app/src/main/java/com/example/productinventory/MainActivity.kt:250-288 | accepted exactly when both texts are non-blank, both numbers parsed, quantity >= 1 and price >= 0, and then the product is built from the four values in field order; the general message exactly when something is blank or unparsed or both ranges fail; the quantity message exactly when filled with quantity < 1 and price >= 0; the price message exactly when filled with quantity >= 1 and price < 0 |
| `MainScreen.AdmittedImage` | app/src/main/java/com/example/productinventory/MainActivity.kt:255-281 | the record checks nothing: a product is one the form admits exactly when entering its four fields is accepted and builds that same product |
| `MainScreen.AndOrOnlyChangesMessage` | app/src/main/java/com/example/productinventory/MainActivity.kt:255-272 | joining the two range tests with OR instead of AND admits the same entries with the same product, and would make the quantity and price messages unreachable |
| `MainScreen.BoundaryEntries` | app/src/main/java/com/example/productinventory/MainActivity.kt:255-281 | price -1 with quantity 5 gets the price message; price 3 with quantity 0 gets the quantity message; both bad gets the general message; price 0 with quantity 1 is admitted |
| `MainScreen.Submit` | app/src/main/java/com/example/productinventory/MainActivity.kt:250-288 | the outcome is the decision on the parsed inputs and the toast text is that outcome's message; on acceptance exactly that product is appended and the total value grows by its value; on rejection the stock is unchanged; if every stored product was admissible, every stored product still is |
| `MainScreen.AdmittedTotals` | app/src/main/java/com/example/productinventory/MainActivity.kt:261-281 | when every product was admissible, the total value is non-negative and the total quantity is at least the number of products |
| `MainScreen.Wrap32` | app/src/main/java/com/example/productinventory/MainActivity.kt:106-107 | the result is congruent to the input modulo 2^32 and equals it when the input fits in 32 bits |
| `MainScreen.StatisticsTotalQuantity` | app/src/main/java/com/example/productinventory/MainActivity.kt:106-107 | the total quantity the statistics screen shows is the exact sum of the stored quantities reduced to 32 bits |
| `MainScreen.QuantitySumIsWrappedTotal` | app/src/main/java/com/example/productinventory/MainActivity.kt:106-107 | the total quantity shown, a fold with wrapping Int addition, is the exact sum of the quantities reduced to 32 bits, and is the exact sum when that fits |

## Left out

- The Compose screens, navigation, layouts and toast display: these are UI plumbing. A toast is represented only by the `Outcome` that selects its text (`MainScreen.Message`).
- The Gson serialisation to and from the detail screen: it is a call into a library whose code is not part of this model, so no JSON round trip is stated.
- StockModel.Stock.Products: returns a snapshot `seq` of the stored products. The Kotlin getter (Stock.kt:7-8) instead returns the live `_products` list typed as `List`: a caller that keeps it sees later additions, and a cast could change it. The model also does not enforce the privacy of `_products` (Stock.kt:5): any method whose `modifies` names the stock could assign `items`, although only `AddProduct` does. Both callers (MainActivity.kt:66 and 107) read the list at once and do not keep it.
- Kotlin's `toDoubleOrNull` and `toIntOrNull`: these are grammars of a library. `Submit` takes them as parameters of type `string -> Option<...>`, so every property holds for any parser.
- `isBlank`: `MainScreen.IsWhitespace` lists the characters the JVM treats as white space. It is written from the platform's documented behaviour, not from library code.
- IEEE-754 `Double`: rounding in the price sum, NaN or infinite prices slipping past `price < 0`, and the display formatting of the total. Prices here are exact reals, so `CalculateTotalValue` is an exact sum.
- The Compose state holders (`remember { mutableStateOf(...) }`): framework reactivity. The four texts are plain parameters of `Submit`.
