# Best Buy Product — a Dafny model

This project models the `Product` class of the Best Buy store (`products.py`).
A product has a name, a price, a stock quantity and an active flag. Its
constructor and mutators validate their arguments before changing anything.
A purchase returns `quantity * price`, lowers the stock, and deactivates the
product when it sells out. Setting the stock to zero also deactivates it.
Restocking never reactivates it: only `activate()` does.

The model has three modules:

- `PyText` (`text.dfy`) holds the two pieces of Python string behaviour the
  class uses. One is `str.strip()`, with Python's whitespace set, which the
  constructor uses to reject blank names. The other is `str(int)`, which
  `show()` uses to render the price and quantity.
- `Products` (`products.py` → `products.dfy`) gives the class twice. On
  values, `ProductState` and the step functions `Construct`,
  `SetQuantityStep` and `BuyStep` return the outcome (a value or the
  `ValueError` raised) together with the state left behind; the properties
  are proved there. The mutable `Product` class has `const` name and price,
  `var` quantity and active flag, and methods written as the Python methods
  are. Each method is proved to follow its step function. `Create` stands
  for calling `Product(...)`: it either raises or returns a fresh object.
- `Demo` (`demo.dfy`) replays the file's demonstration block as lemmas and
  as a client method over real objects.

The model follows the code of `products.py`, in particular:

- `buy` has no "not available" check. An inactive product that still has
  stock can be bought (`InactiveProductCanBeBought`, `BuyIgnoresActive`).
- `buy` rejects a quantity of zero or below.
- The price is stored as given, with no conversion to float. With the
  integer prices used throughout, the total `q * price` is an integer, so
  prices and totals are `int`.

Each distinct `ValueError` message is its own `Error` constructor. The
constructor's "negative quantity" (`NegativeStock`) and `set_quantity`'s
(`NegativeQuantity`) are distinct messages, so they are distinct errors.

## Model

| member | source | states |
|---|---|---|
| `PyText.LStrip` | products.py:20 | the result is a suffix of the input that does not start with whitespace, and every character removed is whitespace |
| `PyText.RStrip` | products.py:20 | the result is a prefix of the input that does not end with whitespace, and every character removed is whitespace |
| `PyText.IsSpace` | products.py:20 | the whitespace set of Python's `str.isspace`, which `strip()` removes |
| `PyText.Blank` | products.py:20 | every character of the string is whitespace; the empty string included |
| `PyText.Strip` | products.py:20 | the stripped name is the middle slice of the name that neither starts nor ends with whitespace, and everything cut off before or after it is whitespace |
| `PyText.StripEmptyIffBlank` | products.py:20 | `name.strip() == ''` holds exactly when every character of the name is whitespace |
| `PyText.NatStr` | products.py:77 | the rendering of a natural number is non-empty, all decimal digits, has no leading zero, and is exactly `0` for zero |
| `PyText.IntStr` | products.py:77 | `str` of an int starts with `-` exactly for negative numbers, every other character is a digit, the digits have no leading zero (only `0` itself starts with `0`), and they read back as the magnitude of the number |
| `PyText.ParseNatStr` | products.py:77 | reading the digits of a rendered number gives the number back |
| `PyText.NatStrInjective` | products.py:77 | distinct natural numbers have distinct digit strings |
| `PyText.IntStrInjective` | products.py:77 | distinct integers render to distinct strings |
| `PyText.IntStrHasNoComma` | products.py:77 | a rendered integer contains no comma, so the separators of `show()` cannot be confused with it |
| `Products.NameRejected` | products.py:20 | the constructor's name test: the name is empty or strips to the empty string |
| `Products.Invariant` | products.py:20-25 | the class invariant the constructor establishes: a non-blank name, a price and a stock of at least zero |
| `Products.Construct` | products.py:15-31 | construction fails exactly when the name is blank, the price is negative or the quantity is negative, with the checks made in that order; on success the fields equal the arguments, the product is active, and the class invariant holds |
| `Products.SetQuantityStep` | products.py:39-51 | a negative quantity fails with the negative-quantity error and changes nothing; otherwise the stock becomes the argument, the flag becomes false at zero and is otherwise kept, name and price are kept, and the invariant is preserved |
| `Products.BuyStep` | products.py:79-100 | a purchase fails exactly when the quantity is at most zero (non-positive error) or above the stock (insufficient-stock error), and then changes nothing; on success it returns `q * price`, lowers the stock by `q`, makes the flag false exactly when the stock reaches zero and keeps it otherwise, and preserves the invariant |
| `Products.Summary` | products.py:77 | the text of `show()`: the name, `, Price: `, the price as `str(int)`, `, Quantity: `, the quantity as `str(int)` |
| `Products.SummaryDeterminesPriceAndQuantity` | products.py:70-77 | two products with the same name have the same `show()` text only when their prices and quantities are equal |
| `Products.BuyIgnoresActive` | products.py:79-98 | the outcome of a purchase and the stock it leaves do not depend on the active flag |
| `Products.InactiveProductCanBeBought` | products.py:79-100 | an inactive product with enough stock sells for `q * price` and stays inactive |
| `Products.BuyTotalNonNegative` | products.py:91 | a successful purchase from a valid product never costs a negative amount |
| `Products.BuyInTwoSteps` | products.py:79-100 | buying `q1` then `q2` succeeds exactly when buying `q1 + q2` at once does, and then the totals add up and the final products are equal |
| `Products.RunPreservesInvariant` | products.py:15-100 | from a valid product, every sequence of `set_quantity`, `activate`, `deactivate` and `buy` calls, failing or not, leaves a valid product |
| `Products.RunKeepsNameAndPrice` | products.py:28-29 | no operation changes the name or the price set at construction |
| `Products.OnlyActivateReactivates` | products.py:39-100 | an inactive product stays inactive under any sequence of operations without `activate`, restocking included |
| `Products.StockOnlyGrowsBySetQuantity` | products.py:39-100 | without `set_quantity`, no sequence of operations raises the stock |
| `Products.Product.constructor` | products.py:27-31 | a product built from accepted arguments holds them, is active and satisfies the invariant |
| `Products.Create` | products.py:15-31 | creation raises exactly the error `Construct` gives; otherwise it returns a fresh valid product whose state is the one `Construct` gives |
| `Products.Product.GetQuantity` | products.py:33-37 | returns the current stock, which is never negative |
| `Products.Product.SetQuantity` | products.py:39-51 | the error returned and the new state are those of `SetQuantityStep` on the old state, which is the `SetQuantity` case of `Apply`; the invariant is kept |
| `Products.Product.IsActive` | products.py:54-60 | returns the active flag |
| `Products.Product.Activate` | products.py:62-64 | the flag becomes true and nothing else changes, whatever the stock; the new state is the `Activate` case of `Apply` |
| `Products.Product.Deactivate` | products.py:66-68 | the flag becomes false and nothing else changes; the new state is the `Deactivate` case of `Apply` |
| `Products.Product.Show` | products.py:70-77 | returns `Summary` of the current state, which begins with the name; nothing changes |
| `Products.Product.Buy` | products.py:79-100 | the result returned and the new state are those of `BuyStep` on the old state, which is the `Buy` case of `Apply`; the invariant is kept |
| `Demo.BoseScenario` | products.py:106-109 | the earbuds (price 250, stock 500) are created active; buying 50 costs 12500 and leaves 450 in stock and the product active |
| `Demo.MacScenario` | products.py:107-111 | the laptop (price 1450, stock 100) is created active; buying 100 costs 145000 and leaves it inactive with no stock; a further purchase of 1 then fails for insufficient stock |
| `Demo.RestockScenario` | products.py:116 | restocking the earbuds to 1000 keeps them active |
| `Demo.RejectionScenarios` | products.py:20-21 | an empty name and a whitespace-only name are both rejected with the empty-name error |
| `Demo.NegativePurchaseScenario` | products.py:84-85 | buying -5 earbuds fails with the non-positive error and leaves the product as it was |
| `Demo.ShowBoseAfterPurchase` | products.py:113 | the earbuds render as `Bose QuietComfort Earbuds, Price: 250, Quantity: 450` |
| `Demo.ShowMacAfterPurchase` | products.py:114 | the laptop renders as `MacBook Air M2, Price: 1450, Quantity: 0` |
| `Demo.ShowBoseAfterRestock` | products.py:116-117 | after restocking, the earbuds render with quantity 1000 |
| `Demo.RunDemo` | products.py:104-117 | running the demonstration on objects gives totals 12500 and 145000, an inactive laptop, the two summaries shown after the purchases, and the earbuds' summary after restocking |

## Left out

- Exceptions: each `raise ValueError(...)` is modelled as a `Fail(error)` outcome, with one `Error` constructor per message. The message texts are not modelled.
- Dynamic typing: `name` is a string, and `price` and `quantity` are integers. Python's `not name` also accepts `None` and other non-string values, and the comparisons accept floats; neither is modelled.
- Floating-point prices and totals are not modelled. The price is an `int`, and the total is the exact product `q * price`. `show()` renders the price with `str(int)` only.
- The `print` calls of the demonstration block: its scenarios are lemmas in `Demo` and the client method `Demo.RunDemo`.
- Outside reassignment of attributes: Python lets any caller overwrite `name` or `price`. The class itself never does, so the model makes both `const`.
- `Products.Product.GetQuantity`, `Activate`, `Deactivate`, `SetQuantity` and `Buy` require the object invariant `Valid()`. Every object built through `Create` satisfies it, and every method keeps it.
